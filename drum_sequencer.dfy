/** The drum grid, its per-track mute flags and volumes, and the rule that turns
    (grid, mute flags, step) into the trigger commands issued at one sixteenth
    (src/app/components/DrumSequencer.tsx). */
module DrumSequencer {
  import opened Types

  /** The ten drum lanes, in row order. */
  const DrumNames: seq<string> :=
    ["Kick", "Snare", "Hi-Hat", "Clap", "Tom", "Rim", "Crash", "Ride", "Cowbell", "Shaker"]

  const Steps: nat := 16

  /** Row d, column s: is drum d active on step s. */
  type Grid = seq<seq<bool>>

  predicate WellFormed(g: Grid) {
    |g| == |DrumNames| && forall d :: 0 <= d < |g| ==> |g[d]| == Steps
  }

  lemma Dimensions()
    ensures |DrumNames| == 10 && Steps == 16 && Steps == PatternSlots
    ensures forall i, j :: 0 <= i < j < |DrumNames| ==> DrumNames[i] != DrumNames[j]
  {
  }

  /** Flips one cell of a copy of the grid. */
  function ToggleStep(g: Grid, d: nat, s: nat): (r: Grid)
    requires d < |g| && s < |g[d]|
    ensures |r| == |g| && forall e :: 0 <= e < |g| ==> |r[e]| == |g[e]|
    ensures r[d][s] == !g[d][s]
    ensures forall e, t :: 0 <= e < |g| && 0 <= t < |g[e]| && (e != d || t != s) ==> r[e][t] == g[e][t]
  {
    g[d := g[d][s := !g[d][s]]]
  }

  lemma ToggleKeepsShape(g: Grid, d: nat, s: nat)
    requires WellFormed(g) && d < |g| && s < |g[d]|
    ensures WellFormed(ToggleStep(g, d, s))
  {
  }

  /** Toggling the same cell twice restores the grid. */
  lemma ToggleTwice(g: Grid, d: nat, s: nat)
    requires d < |g| && s < |g[d]|
    ensures ToggleStep(ToggleStep(g, d, s), d, s) == g
  {
    var r := ToggleStep(ToggleStep(g, d, s), d, s);
    assert r[d] == g[d];
  }

  /** How the live sequencer sounds each drum: a pitch and a note length for
      the membrane voices and the rim, a note length alone for the others. */
  datatype Voicing = Pitched(pitch: string, duration: string) | DurationOnly(duration: string)

  function LiveVoicing(d: nat): (v: Option<Voicing>)
    ensures v.Some? <==> d < |DrumNames|
    ensures v.Some? ==> (v.value.Pitched? <==> d == 0 || d == 1 || d == 4 || d == 5)
    ensures v.Some? && v.value.DurationOnly? ==> (v.value.duration == "8n" <==> d == 3)
  {
    if d == 0 then Some(Pitched("C1", "8n"))
    else if d == 1 then Some(Pitched("C2", "8n"))
    else if d == 2 then Some(DurationOnly("16n"))
    else if d == 3 then Some(DurationOnly("8n"))
    else if d == 4 then Some(Pitched("C3", "8n"))
    else if d == 5 then Some(Pitched("C4", "8n"))
    else if d == 6 then Some(DurationOnly("16n"))
    else if d == 7 then Some(DurationOnly("16n"))
    else if d == 8 then Some(DurationOnly("16n"))
    else if d == 9 then Some(DurationOnly("16n"))
    else None
  }

  /** The voicing table read per drum. */
  lemma VoicingTable()
    ensures LiveVoicing(0) == Some(Pitched("C1", "8n")) && LiveVoicing(1) == Some(Pitched("C2", "8n"))
    ensures LiveVoicing(4) == Some(Pitched("C3", "8n")) && LiveVoicing(5) == Some(Pitched("C4", "8n"))
    ensures LiveVoicing(3) == Some(DurationOnly("8n"))
    ensures forall d :: d in {2, 6, 7, 8, 9} ==> LiveVoicing(d) == Some(DurationOnly("16n"))
  {
  }

  /** A trigger command sent to drum `drum`'s instrument at audio time `time`. */
  datatype Trigger = Trigger(drum: nat, voicing: Voicing, time: real)

  /** Row d fires at `step`: the cell is set and the track is not muted. A read
      past the end of a row or of the flags is JavaScript's undefined, i.e. false. */
  predicate Fires(pattern: Grid, active: seq<bool>, step: nat, d: nat) {
    d < |pattern| && step < |pattern[d]| && pattern[d][step] && d < |active| && active[d]
  }

  /** The triggers for rows 0..n-1, in row order. */
  function TriggersUpTo(pattern: Grid, active: seq<bool>, step: nat, time: real, n: nat): seq<Trigger>
    requires n <= |pattern|
  {
    if n == 0 then []
    else
      TriggersUpTo(pattern, active, step, time, n - 1)
      + (if Fires(pattern, active, step, n - 1) && LiveVoicing(n - 1).Some?
         then [Trigger(n - 1, LiveVoicing(n - 1).value, time)] else [])
  }

  /** Every trigger issued at one step. */
  function StepTriggers(pattern: Grid, active: seq<bool>, step: nat, time: real): seq<Trigger> {
    TriggersUpTo(pattern, active, step, time, |pattern|)
  }

  /** Every trigger issued for rows 0..n-1 belongs to a firing drum among
      them, carries that drum's voicing and the tick's time; the triggers come
      in strictly increasing drum order. */
  lemma {:induction false} TriggersSound(pattern: Grid, active: seq<bool>, step: nat, time: real, n: nat)
    requires n <= |pattern|
    ensures forall k :: 0 <= k < |TriggersUpTo(pattern, active, step, time, n)| ==>
      var t := TriggersUpTo(pattern, active, step, time, n)[k];
      t.drum < n && Fires(pattern, active, step, t.drum) && LiveVoicing(t.drum) == Some(t.voicing) && t.time == time
    ensures forall i, j :: 0 <= i < j < |TriggersUpTo(pattern, active, step, time, n)| ==>
      TriggersUpTo(pattern, active, step, time, n)[i].drum < TriggersUpTo(pattern, active, step, time, n)[j].drum
  {
    if n > 0 {
      TriggersSound(pattern, active, step, time, n - 1);
      var prev := TriggersUpTo(pattern, active, step, time, n - 1);
      var ts := TriggersUpTo(pattern, active, step, time, n);
      var tail := if Fires(pattern, active, step, n - 1) && LiveVoicing(n - 1).Some?
        then [Trigger(n - 1, LiveVoicing(n - 1).value, time)] else [];
      assert ts == prev + tail;
      forall k | 0 <= k < |ts|
        ensures && ts[k].drum < n && Fires(pattern, active, step, ts[k].drum)
                && LiveVoicing(ts[k].drum) == Some(ts[k].voicing) && ts[k].time == time
      {
        if k < |prev| { assert ts[k] == prev[k]; } else { assert ts[k] == tail[0]; }
      }
      forall i, j | 0 <= i < j < |ts| ensures ts[i].drum < ts[j].drum {
        assert ts[i] == prev[i];
        if j < |prev| { assert ts[j] == prev[j]; } else { assert ts[j] == tail[0]; }
      }
    }
  }

  /** Every firing drum among rows 0..n-1 that has a voicing gets a trigger. */
  lemma {:induction false} TriggersComplete(pattern: Grid, active: seq<bool>, step: nat, time: real, n: nat, d: nat)
    requires d < n <= |pattern|
    requires Fires(pattern, active, step, d) && d < |DrumNames|
    ensures exists k :: (0 <= k < |TriggersUpTo(pattern, active, step, time, n)|
                         && TriggersUpTo(pattern, active, step, time, n)[k].drum == d)
  {
    var prev := TriggersUpTo(pattern, active, step, time, n - 1);
    var ts := TriggersUpTo(pattern, active, step, time, n);
    var tail := if Fires(pattern, active, step, n - 1) && LiveVoicing(n - 1).Some?
      then [Trigger(n - 1, LiveVoicing(n - 1).value, time)] else [];
    assert ts == prev + tail;
    if d < n - 1 {
      TriggersComplete(pattern, active, step, time, n - 1, d);
      var k :| 0 <= k < |prev| && prev[k].drum == d;
      assert ts[k] == prev[k];
    } else {
      assert ts[|prev|].drum == d;
    }
  }

  /** At one step, drum d gets a trigger exactly when its cell is set, it is
      not muted and it is one of the ten drums; the trigger is its voicing at
      the tick's time. */
  lemma StepTriggersSpec(pattern: Grid, active: seq<bool>, step: nat, time: real, d: nat)
    requires d < |pattern|
    ensures var ts := StepTriggers(pattern, active, step, time);
      (Fires(pattern, active, step, d) && d < |DrumNames|) <==> exists k :: 0 <= k < |ts| && ts[k].drum == d
    ensures d < |DrumNames| ==>
      (Fires(pattern, active, step, d) <==> Trigger(d, LiveVoicing(d).value, time) in StepTriggers(pattern, active, step, time))
  {
    TriggersSound(pattern, active, step, time, |pattern|);
    var ts := StepTriggers(pattern, active, step, time);
    if Fires(pattern, active, step, d) && d < |DrumNames| {
      TriggersComplete(pattern, active, step, time, |pattern|, d);
      var k :| 0 <= k < |ts| && ts[k].drum == d;
      assert ts[k] == Trigger(d, LiveVoicing(d).value, time);
    }
  }

  /** The Sequence callback's loop over the rows of the grid. */
  method EvaluateStep(pattern: Grid, active: seq<bool>, step: nat, time: real) returns (ts: seq<Trigger>)
    ensures ts == StepTriggers(pattern, active, step, time)
  {
    ts := [];
    var drumIndex := 0;
    while drumIndex < |pattern|
      invariant 0 <= drumIndex <= |pattern|
      invariant ts == TriggersUpTo(pattern, active, step, time, drumIndex)
    {
      var row := pattern[drumIndex];
      if step < |row| && row[step] && drumIndex < |active| && active[drumIndex] {
        if drumIndex == 0 {
          ts := ts + [Trigger(0, Pitched("C1", "8n"), time)];
        } else if drumIndex == 1 {
          ts := ts + [Trigger(1, Pitched("C2", "8n"), time)];
        } else if drumIndex == 2 {
          ts := ts + [Trigger(2, DurationOnly("16n"), time)];
        } else if drumIndex == 3 {
          ts := ts + [Trigger(3, DurationOnly("8n"), time)];
        } else if drumIndex == 4 {
          ts := ts + [Trigger(4, Pitched("C3", "8n"), time)];
        } else if drumIndex == 5 {
          ts := ts + [Trigger(5, Pitched("C4", "8n"), time)];
        } else if drumIndex == 6 {
          ts := ts + [Trigger(6, DurationOnly("16n"), time)];
        } else if drumIndex == 7 {
          ts := ts + [Trigger(7, DurationOnly("16n"), time)];
        } else if drumIndex == 8 {
          ts := ts + [Trigger(8, DurationOnly("16n"), time)];
        } else if drumIndex == 9 {
          ts := ts + [Trigger(9, DurationOnly("16n"), time)];
        }
      }
      drumIndex := drumIndex + 1;
    }
  }

  /** The values the Sequence cycles through, one per sixteenth. */
  const SequenceEvents: seq<nat> := [0, 1, 2, 3, 4, 5, 6, 7, 8, 9, 10, 11, 12, 13, 14, 15]

  /** The step the Sequence passes to its callback on its tick-th sixteenth. */
  function SequenceStepAt(tick: nat): (s: nat)
    ensures s < Steps && s == tick % Steps
  {
    SequenceEvents[tick % Steps]
  }

  /** The number box clamps a typed volume to [-60, 0] dB. */
  function ClampVolume(v: real): (r: real)
    ensures -60.0 <= r <= 0.0
    ensures -60.0 <= v <= 0.0 ==> r == v
    ensures v < -60.0 ==> r == -60.0
    ensures v > 0.0 ==> r == 0.0
  {
    var lower := if v > -60.0 then v else -60.0;
    if lower < 0.0 then lower else 0.0
  }

  /** The sequencer component's own state: the highlighted step, the mute
      flags, the volumes, whether the drum instruments exist and whether a
      Sequence is scheduled. */
  class Sequencer {
    var currentStep: int
    var activeTracks: seq<bool>
    var volumes: seq<real>
    var hasSynths: bool
    var sequenceRunning: bool

    ghost predicate Valid()
      reads this
    {
      && |activeTracks| == |DrumNames|
      && |volumes| == |DrumNames|
      && (sequenceRunning ==> hasSynths)
      && -1 <= currentStep < Steps
    }

    /** Every track active, every volume -10 dB, no step highlighted. */
    constructor ()
      ensures Valid()
      ensures currentStep == -1
      ensures activeTracks == seq(|DrumNames|, _ => true)
      ensures volumes == seq(|DrumNames|, _ => -10.0)
      ensures !hasSynths && !sequenceRunning
    {
      currentStep := -1;
      activeTracks := seq(|DrumNames|, _ => true);
      volumes := seq(|DrumNames|, _ => -10.0);
      hasSynths := false;
      sequenceRunning := false;
    }

    /** The mount effect has built the ten drum instruments. */
    method SynthsReady()
      requires Valid()
      modifies this
      ensures Valid() && hasSynths
      ensures currentStep == old(currentStep) && activeTracks == old(activeTracks)
      ensures volumes == old(volumes) && sequenceRunning == old(sequenceRunning)
    {
      hasSynths := true;
    }

    /** The playback effect: with playback off or no instruments there is no
        Sequence and no highlighted step; otherwise a Sequence is running. */
    method PlaybackChanged(isPlaying: bool)
      requires Valid()
      modifies this
      ensures Valid()
      ensures sequenceRunning == (isPlaying && hasSynths)
      ensures currentStep == (if sequenceRunning then old(currentStep) else -1)
      ensures activeTracks == old(activeTracks) && volumes == old(volumes) && hasSynths == old(hasSynths)
    {
      if !isPlaying || !hasSynths {
        currentStep := -1;
        sequenceRunning := false;
        return;
      }
      sequenceRunning := true;
    }

    /** The Sequence callback on its tick-th sixteenth: highlight the step the
        Sequence passes and issue that step's triggers. */
    method Tick(pattern: Grid, time: real, tick: nat) returns (ts: seq<Trigger>)
      requires Valid() && sequenceRunning
      modifies this
      ensures Valid()
      ensures currentStep == tick % Steps
      ensures ts == StepTriggers(pattern, activeTracks, tick % Steps, time)
      ensures activeTracks == old(activeTracks) && volumes == old(volumes)
      ensures hasSynths == old(hasSynths) && sequenceRunning == old(sequenceRunning)
    {
      var step := SequenceStepAt(tick);
      currentStep := step;
      ts := EvaluateStep(pattern, activeTracks, step, time);
    }

    /** The mute checkbox of track i. */
    method ToggleTrack(i: nat)
      requires Valid() && i < |activeTracks|
      modifies this
      ensures Valid()
      ensures activeTracks == old(activeTracks)[i := !old(activeTracks)[i]]
      ensures currentStep == old(currentStep) && volumes == old(volumes)
      ensures hasSynths == old(hasSynths) && sequenceRunning == old(sequenceRunning)
    {
      var newActive := activeTracks;
      newActive := newActive[i := !newActive[i]];
      activeTracks := newActive;
    }

    /** The volume slider of track i. */
    method VolumeChange(i: nat, value: real)
      requires Valid() && i < |volumes|
      modifies this
      ensures Valid()
      ensures volumes == old(volumes)[i := value]
      ensures currentStep == old(currentStep) && activeTracks == old(activeTracks)
      ensures hasSynths == old(hasSynths) && sequenceRunning == old(sequenceRunning)
    {
      var newVolumes := volumes;
      newVolumes := newVolumes[i := value];
      volumes := newVolumes;
    }

    /** The number box of track i: the typed value, clamped. */
    method VolumeInput(i: nat, typed: real)
      requires Valid() && i < |volumes|
      modifies this
      ensures Valid()
      ensures volumes == old(volumes)[i := ClampVolume(typed)]
      ensures -60.0 <= volumes[i] <= 0.0
      ensures currentStep == old(currentStep) && activeTracks == old(activeTracks)
      ensures hasSynths == old(hasSynths) && sequenceRunning == old(sequenceRunning)
    {
      VolumeChange(i, ClampVolume(typed));
    }
  }
}
