/** The timeline's editing state machine (src/app/components/Timeline.tsx): the
    tool, the selection, the drag in progress, the scrub flag, the playhead,
    the lane height, and the patterns and effect lists it edits. The parent's
    change callbacks are modelled as the editor taking the emitted value. */
module TimelineEditor {
  import opened Types
  import opened TimelineEdits
  import opened TimelinePosition
  import DrumSequencer

  datatype Tool = Select | Trim

  /** A drag in progress. A move remembers where the note started and the
      clamped step it is previewed at; a resize the clamped duration. */
  datatype DragState =
    | MoveDrag(noteId: string, originalStep: nat, originalDuration: int, isDuplicate: bool, currentStep: Option<int>)
    | ResizeDrag(noteId: string, originalDuration: int, newDuration: Option<int>)

  const LastStep: int := 15
  const MinTrackHeight: int := 32
  const MaxTrackHeight: int := 128

  function Clamp(v: int, lo: int, hi: int): (r: int)
    requires lo <= hi
    ensures lo <= r <= hi
    ensures lo <= v <= hi ==> r == v
    ensures v < lo ==> r == lo
    ensures v > hi ==> r == hi
  {
    if v < lo then lo else if v > hi then hi else v
  }

  /** The step a move drag previews after moving by diffSteps. */
  function MoveCandidate(originalStep: int, diffSteps: int): (s: int)
    ensures 0 <= s <= LastStep
    ensures 0 <= originalStep + diffSteps <= LastStep ==> s == originalStep + diffSteps
  {
    Clamp(originalStep + diffSteps, 0, LastStep)
  }

  /** The duration a resize drag previews after stretching by diffSteps: at
      least one step, at most the loop. */
  function ResizeCandidate(originalDuration: int, diffSteps: int): (d: int)
    ensures 1 <= d <= 16
    ensures 1 <= originalDuration + diffSteps <= 16 ==> d == originalDuration + diffSteps
  {
    Clamp(originalDuration + diffSteps, 1, 16)
  }

  /** Shift-wheel over the lanes: five pixels per notch, within [32, 128]. */
  function NextTrackHeight(h: int, scrollDown: bool): (r: int)
    ensures MinTrackHeight <= r <= MaxTrackHeight
    ensures MinTrackHeight <= h + (if scrollDown then -5 else 5) <= MaxTrackHeight
            ==> r == h + (if scrollDown then -5 else 5)
  {
    Clamp(h + (if scrollDown then -5 else 5), MinTrackHeight, MaxTrackHeight)
  }

  /** `!selectedNoteId`: no selection, or the empty id. */
  predicate NoSelection(sel: Option<string>) {
    sel.None? || sel.value == ""
  }

  /** Every track's effect list holds at most one effect of each kind. */
  predicate EffectsValid(te: TrackEffects) {
    forall t :: t in te ==> KindsUnique(te[t])
  }

  predicate DragValid(d: Option<DragState>) {
    d.Some? ==>
      match d.value
      case MoveDrag(_, from, _, _, cur) => from < PatternSlots && (cur.Some? ==> 0 <= cur.value <= LastStep)
      case ResizeDrag(_, _, nd) => nd.Some? ==> 1 <= nd.value <= 16
  }

  class Editor {
    var tool: Tool
    var selectedNoteId: Option<string>
    var drag: Option<DragState>
    var isScrubbing: bool
    var currentTime: real
    var trackHeight: int
    var synthPattern: SynthPattern
    var drumPattern: DrumSequencer.Grid
    var trackEffects: TrackEffects

    ghost predicate Valid()
      reads this
    {
      && IsStepPattern(synthPattern)
      && UniqueIds(synthPattern)
      && DrumSequencer.WellFormed(drumPattern)
      && EffectsValid(trackEffects)
      && DragValid(drag)
      && MinTrackHeight <= trackHeight <= MaxTrackHeight
    }

    /** Select tool, nothing selected or dragged, playhead at 0, lanes 64 px. */
    constructor (synth: SynthPattern, drums: DrumSequencer.Grid, effects: TrackEffects)
      requires IsStepPattern(synth) && UniqueIds(synth)
      requires DrumSequencer.WellFormed(drums) && EffectsValid(effects)
      ensures Valid()
      ensures tool == Select && selectedNoteId.None? && drag.None?
      ensures !isScrubbing && currentTime == 0.0 && trackHeight == 64
      ensures synthPattern == synth && drumPattern == drums && trackEffects == effects
    {
      tool := Select;
      selectedNoteId := None;
      drag := None;
      isScrubbing := false;
      currentTime := 0.0;
      trackHeight := 64;
      synthPattern := synth;
      drumPattern := drums;
      trackEffects := effects;
    }

    /** The Select / Split toolbar buttons. */
    method SetTool(t: Tool)
      requires Valid()
      modifies this
      ensures Valid() && tool == t
      ensures selectedNoteId == old(selectedNoteId) && drag == old(drag)
      ensures synthPattern == old(synthPattern) && drumPattern == old(drumPattern)
      ensures trackEffects == old(trackEffects) && isScrubbing == old(isScrubbing)
      ensures currentTime == old(currentTime) && trackHeight == old(trackHeight)
    {
      tool := t;
    }

    /** Mouse-down on a note at slot stepIndex. Only the select tool reacts: it
        selects the note and starts a resize when the press is on the note's
        right edge, otherwise a move (a duplicate when alt is held). */
    method NoteMouseDown(stepIndex: nat, noteId: string, durationSteps: int, onRightEdge: bool, altKey: bool)
      requires Valid() && stepIndex < PatternSlots
      modifies this
      ensures Valid()
      ensures old(tool) != Select ==> selectedNoteId == old(selectedNoteId) && drag == old(drag)
      ensures old(tool) == Select ==> selectedNoteId == Some(noteId)
      ensures old(tool) == Select && onRightEdge ==> drag == Some(ResizeDrag(noteId, durationSteps, None))
      ensures old(tool) == Select && !onRightEdge ==>
                drag == Some(MoveDrag(noteId, stepIndex, durationSteps, altKey, None))
      ensures tool == old(tool) && synthPattern == old(synthPattern) && drumPattern == old(drumPattern)
      ensures trackEffects == old(trackEffects) && isScrubbing == old(isScrubbing)
      ensures currentTime == old(currentTime) && trackHeight == old(trackHeight)
    {
      if tool != Select {
        return;
      }
      selectedNoteId := Some(noteId);
      if onRightEdge {
        drag := Some(ResizeDrag(noteId, durationSteps, None));
      } else {
        drag := Some(MoveDrag(noteId, stepIndex, durationSteps, altKey, None));
      }
    }

    /** Window mouse-move during a drag, by diffSteps whole steps: only the
        preview changes, never a pattern. */
    method GlobalMouseMove(diffSteps: int)
      requires Valid()
      modifies this
      ensures Valid()
      ensures old(drag).None? ==> drag.None?
      ensures old(drag).Some? && old(drag).value.MoveDrag? ==>
                drag == Some(old(drag).value.(currentStep := Some(MoveCandidate(old(drag).value.originalStep, diffSteps))))
      ensures old(drag).Some? && old(drag).value.ResizeDrag? ==>
                drag == Some(old(drag).value.(newDuration := Some(ResizeCandidate(old(drag).value.originalDuration, diffSteps))))
      ensures tool == old(tool) && selectedNoteId == old(selectedNoteId)
      ensures synthPattern == old(synthPattern) && drumPattern == old(drumPattern)
      ensures trackEffects == old(trackEffects) && isScrubbing == old(isScrubbing)
      ensures currentTime == old(currentTime) && trackHeight == old(trackHeight)
    {
      if drag.None? {
        return;
      }
      var d := drag.value;
      match d
      case MoveDrag(_, from, _, _, _) =>
        drag := Some(d.(currentStep := Some(MoveCandidate(from, diffSteps))));
      case ResizeDrag(_, dur, _) =>
        drag := Some(d.(newDuration := Some(ResizeCandidate(dur, diffSteps))));
    }

    /** Window mouse-up: commits the drag and ends it. A move commits
        `Moved` on the copied pattern (nothing is emitted when it stays put or
        the note is not found), a resize always emits `Resized`. `freshId` is
        the id a duplicate receives; it is not yet in use. */
    method GlobalMouseUp(freshId: string) returns (emitted: Option<SynthPattern>)
      requires Valid() && IdCount(synthPattern, freshId) == 0
      modifies this
      ensures Valid() && drag.None?
      ensures old(drag).None? ==> emitted.None?
      ensures old(drag).Some? && old(drag).value.MoveDrag? ==>
                var m := old(drag).value;
                var target := if m.currentStep.Some? then m.currentStep.value else m.originalStep;
                emitted == Moved(old(synthPattern), m.originalStep, target, m.noteId, m.isDuplicate, freshId)
      ensures old(drag).Some? && old(drag).value.ResizeDrag? ==>
                emitted == Some(Resized(old(synthPattern), old(drag).value.noteId, old(drag).value.newDuration))
      ensures emitted.Some? ==> synthPattern == emitted.value
      ensures emitted.None? ==> synthPattern == old(synthPattern)
      ensures tool == old(tool) && selectedNoteId == old(selectedNoteId)
      ensures drumPattern == old(drumPattern) && trackEffects == old(trackEffects)
      ensures isScrubbing == old(isScrubbing) && currentTime == old(currentTime) && trackHeight == old(trackHeight)
    {
      emitted := None;
      if drag.None? {
        return;
      }
      var d := drag.value;
      match d {
      case MoveDrag(noteId, from, _, dup, cur) =>
        var target: nat := if cur.Some? then cur.value else from;
        emitted := Moved(synthPattern, from, target, noteId, dup, freshId);
        if emitted.Some? {
          if dup {
            DuplicateAddsOne(synthPattern, from, target, noteId, freshId);
          } else {
            MoveKeepsUniqueIds(synthPattern, from, target, noteId, freshId);
          }
          synthPattern := emitted.value;
        }
      case ResizeDrag(noteId, _, newDur) =>
        var np := CommitResize(synthPattern, noteId, newDur);
        ResizeKeepsIds(synthPattern, noteId, newDur);
        ResizeOnlyDuration(synthPattern, noteId, newDur);
        synthPattern := np;
        emitted := Some(np);
      }
      drag := None;
    }

    /** The delete button: removes every note with the selected id and clears
        the selection; does nothing without a selection. */
    method Delete() returns (emitted: Option<SynthPattern>)
      requires Valid()
      modifies this
      ensures Valid()
      ensures NoSelection(old(selectedNoteId)) ==>
                emitted.None? && selectedNoteId == old(selectedNoteId) && synthPattern == old(synthPattern)
      ensures !NoSelection(old(selectedNoteId)) ==>
                emitted == Some(Deleted(old(synthPattern), old(selectedNoteId).value))
                && synthPattern == emitted.value && selectedNoteId.None?
      ensures tool == old(tool) && drag == old(drag)
      ensures drumPattern == old(drumPattern) && trackEffects == old(trackEffects)
      ensures isScrubbing == old(isScrubbing) && currentTime == old(currentTime) && trackHeight == old(trackHeight)
    {
      if NoSelection(selectedNoteId) {
        return None;
      }
      var id := selectedNoteId.value;
      DeleteKeepsUniqueIds(synthPattern, id);
      synthPattern := Deleted(synthPattern, id);
      emitted := Some(synthPattern);
      selectedNoteId := None;
    }

    /** Dropping an effect chip on track t; `freshId` names the new effect. */
    method DropEffectOn(t: TrackId, payload: string, freshId: string) returns (outcome: DropOutcome)
      requires Valid() && (payload == "" || ParseEffectName(payload).Some?)
      modifies this
      ensures Valid()
      ensures outcome == DropEffect(old(trackEffects), t, payload, freshId)
      ensures trackEffects == (if outcome.Added? then outcome.effects else old(trackEffects))
      ensures tool == old(tool) && selectedNoteId == old(selectedNoteId) && drag == old(drag)
      ensures synthPattern == old(synthPattern) && drumPattern == old(drumPattern)
      ensures isScrubbing == old(isScrubbing) && currentTime == old(currentTime) && trackHeight == old(trackHeight)
    {
      outcome := DropEffect(trackEffects, t, payload, freshId);
      if outcome.Added? {
        DropAppends(trackEffects, t, payload, freshId);
        assert EffectsOf(trackEffects, t) == [] || t in trackEffects;
        trackEffects := outcome.effects;
      }
    }

    /** The remove button of effect `effectId` on track t. */
    method RemoveEffectFrom(t: TrackId, effectId: string)
      requires Valid()
      modifies this
      ensures Valid()
      ensures trackEffects == RemoveEffect(old(trackEffects), t, effectId)
      ensures tool == old(tool) && selectedNoteId == old(selectedNoteId) && drag == old(drag)
      ensures synthPattern == old(synthPattern) && drumPattern == old(drumPattern)
      ensures isScrubbing == old(isScrubbing) && currentTime == old(currentTime) && trackHeight == old(trackHeight)
    {
      RemoveEffectSpec(trackEffects, t, effectId);
      trackEffects := RemoveEffect(trackEffects, t, effectId);
    }

    /** Pressing or dragging on the ruler at `offset` pixels from its left
        edge: the offset is clamped to the ruler, turned into a step, shown as
        the playhead, and written to the transport as the returned position
        fields. */
    method Scrub(offset: real, rulerWidth: real, totalWidth: real) returns (position: seq<real>)
      requires Valid() && rulerWidth >= 0.0 && totalWidth > 0.0
      modifies this
      ensures Valid() && isScrubbing
      ensures currentTime >= 0.0
      ensures position == ScrubFields(currentTime)
      ensures RawStep(Musical(position), 0.0) == currentTime
      ensures var x := if offset < 0.0 then 0.0 else if offset > rulerWidth then rulerWidth else offset;
              currentTime == x / totalWidth * TotalSteps as real
      ensures tool == old(tool) && selectedNoteId == old(selectedNoteId) && drag == old(drag)
      ensures synthPattern == old(synthPattern) && drumPattern == old(drumPattern)
      ensures trackEffects == old(trackEffects) && trackHeight == old(trackHeight)
    {
      var x := if offset < 0.0 then 0.0 else if offset > rulerWidth then rulerWidth else offset;
      var step := x / totalWidth * TotalSteps as real;
      DivNonNeg(x, totalWidth);
      currentTime := step;
      isScrubbing := true;
      position := ScrubFields(step);
      ScrubRoundTrip(step, 0.0);
    }

    /** Mouse-up or leave on the ruler. */
    method ScrubEnd()
      requires Valid()
      modifies this
      ensures Valid() && !isScrubbing
      ensures tool == old(tool) && selectedNoteId == old(selectedNoteId) && drag == old(drag)
      ensures synthPattern == old(synthPattern) && drumPattern == old(drumPattern)
      ensures trackEffects == old(trackEffects) && currentTime == old(currentTime) && trackHeight == old(trackHeight)
    {
      isScrubbing := false;
    }

    /** One animation frame of the playhead: while playing and not scrubbing,
        the playhead follows the transport position. */
    method PlayheadFrame(pos: TransportPosition, bpm: real, isPlaying: bool)
      requires Valid()
      modifies this
      ensures Valid()
      ensures isPlaying && !isScrubbing ==> currentTime == PlayheadStep(pos, bpm)
      ensures !(isPlaying && !isScrubbing) ==> currentTime == old(currentTime)
      ensures tool == old(tool) && selectedNoteId == old(selectedNoteId) && drag == old(drag)
      ensures synthPattern == old(synthPattern) && drumPattern == old(drumPattern)
      ensures trackEffects == old(trackEffects) && isScrubbing == old(isScrubbing) && trackHeight == old(trackHeight)
    {
      if isPlaying && !isScrubbing {
        currentTime := PlayheadStep(pos, bpm);
      }
    }

    /** Wheel over the lanes: alt zooms (not modelled), shift without alt
        changes the lane height. */
    method Wheel(altKey: bool, shiftKey: bool, scrollDown: bool)
      requires Valid()
      modifies this
      ensures Valid()
      ensures trackHeight == (if !altKey && shiftKey then NextTrackHeight(old(trackHeight), scrollDown) else old(trackHeight))
      ensures tool == old(tool) && selectedNoteId == old(selectedNoteId) && drag == old(drag)
      ensures synthPattern == old(synthPattern) && drumPattern == old(drumPattern)
      ensures trackEffects == old(trackEffects) && isScrubbing == old(isScrubbing) && currentTime == old(currentTime)
    {
      if !altKey && shiftKey {
        trackHeight := NextTrackHeight(trackHeight, scrollDown);
      }
    }

    /** Mouse-down on a drum hit in the timeline. Only active cells are drawn,
        so the press switches that cell off; nothing else changes. */
    method DrumCellMouseDown(d: nat, s: nat)
      requires Valid() && d < |drumPattern| && s < |drumPattern[d]| && drumPattern[d][s]
      modifies this
      ensures Valid()
      ensures drumPattern == DrumSequencer.ToggleStep(old(drumPattern), d, s)
      ensures !drumPattern[d][s]
      ensures tool == old(tool) && selectedNoteId == old(selectedNoteId) && drag == old(drag)
      ensures synthPattern == old(synthPattern) && trackEffects == old(trackEffects)
      ensures isScrubbing == old(isScrubbing) && currentTime == old(currentTime) && trackHeight == old(trackHeight)
    {
      DrumSequencer.ToggleKeepsShape(drumPattern, d, s);
      drumPattern := DrumSequencer.ToggleStep(drumPattern, d, s);
    }
  }
}
