# loop-station in Dafny

Loop Station is a browser beat maker. It has:

- a ten-row by sixteen-step drum grid played by a step sequencer;
- a synth track whose sixteen slots hold the notes starting on that step;
- a timeline editor to move, duplicate, resize and delete those notes, drop per-track effects and scrub the transport;
- a preset library (eight built-in presets plus user presets);
- an offline render of the current project to an event schedule, written out as a 16-bit PCM WAV file.

This project models the deterministic logic behind those features and proves what each operation promises.

| module | file | models |
|---|---|---|
| `Types` | types.dfy | notes, synth patterns (legacy string entries or note records), the 13 effect kinds, effect configs and per-track effect lists with `synth` / `drum-i` keys |
| `DrumSequencer` | drum_sequencer.dfy | the drum list, grid toggle, per-step trigger rule and voicing table, and the sequencer's state (current step, mute flags, volumes) as a class |
| `TimelinePosition` | timeline_position.dfy | the playhead's `bars:quarters:sixteenths` parse with ECMAScript `%`, and the scrub encoding back to those fields |
| `TimelineEdits` | timeline_edits.dfy | the pure pattern transforms (move, duplicate, resize, delete by id) and effect-list edits, with their counting invariants |
| `TimelineEditor` | timeline_editor.dfy | the editor as a class: tool, selection, drag state, scrub flag, playhead time, track height and the patterns it edits |
| `AudioRender` | audio_render.dfy | drum voice classification and option tables, tempo defaults, the drum and synth event schedule, and the set of synth instruments used |
| `WavWriter` | wav_writer.dfy | the RIFF/WAVE header and interleaved little-endian PCM writer over a zero-filled byte array |
| `Presets` | presets.dfy | built-in preset tables, save/load/delete, delete-button visibility and the export file name |
| `App` | app.dfy | the top-level play/stop state machine and the initial and reset grids |

Foreign inputs are parameters:

- Fresh note and effect ids are passed in. The mouse-up commit requires that the fresh id is not already used in the pattern.
- Pixel maths is replaced by an integer `diffSteps`. The scrub takes the mouse offset and the widths as reals.
- The transport position is the list of its numeric fields.
- Saved presets are the constructor's argument.
- Delete confirmation is taken as accepted.

Numbers in the source are JavaScript doubles. Here they are exact `real`s, with `|0` and `parseInt` modelled as truncation toward zero and `%` as ECMAScript's remainder, whose sign follows the dividend.

## Model

| member | source | states |
|---|---|---|
| Types.ParseEffectName | src/app/types.ts:12-25 | a recognised effect name is the printed name of the kind it returns |
| Types.EffectKinds | src/app/types.ts:12-25 | there are exactly 13 distinct effect kinds and every kind is listed |
| Types.EffectNames | src/app/types.ts:12-25 | every effect name parses back to its kind, and the empty payload is no kind |
| Types.TrackKey | src/app/components/Timeline.tsx:417-451 | the synth track and only it has key `synth`; every drum track's key starts with `drum-` |
| Types.TrackKeyRoundTrip | src/app/components/Timeline.tsx:451 | the `drum-i` / `synth` track key of a track decodes back to that track |
| DrumSequencer.Dimensions | src/app/components/DrumSequencer.tsx:11-24 | ten drums with distinct names and sixteen steps, which is also the synth slot count |
| DrumSequencer.ToggleStep | src/app/components/DrumSequencer.tsx:115-119 | exactly the chosen cell flips, every row keeps its length and every other cell is unchanged |
| DrumSequencer.ToggleKeepsShape | src/app/components/DrumSequencer.tsx:115-119 | toggling keeps a well-formed 10x16 grid well-formed |
| DrumSequencer.ToggleTwice | src/app/components/DrumSequencer.tsx:115-119 | toggling the same cell twice restores the grid |
| DrumSequencer.LiveVoicing | src/app/components/DrumSequencer.tsx:70-100 | every drum index has a voicing; exactly drums 0, 1, 4 and 5 are pitched; among duration-only ones only drum 3 lasts an eighth |
| DrumSequencer.VoicingTable | src/app/components/DrumSequencer.tsx:70-100 | the table: 0 C1/8n, 1 C2/8n, 4 C3/8n, 5 C4/8n, 3 8n, and 2, 6, 7, 8, 9 16n |
| DrumSequencer.TriggersSound | src/app/components/DrumSequencer.tsx:68-69 | every trigger issued is for a drum whose cell is on and whose track is unmuted, and triggers come in increasing drum order |
| DrumSequencer.TriggersComplete | src/app/components/DrumSequencer.tsx:68-69 | every drum whose cell is on and track unmuted gets a trigger with its voicing at the step's time |
| DrumSequencer.StepTriggersSpec | src/app/components/DrumSequencer.tsx:64-106 | a drum is triggered at a step if and only if its cell is on and its track is active, with its voicing |
| DrumSequencer.EvaluateStep | src/app/components/DrumSequencer.tsx:68-102 | the per-drum loop issues exactly the trigger list of the trigger rule |
| DrumSequencer.SequenceStepAt | src/app/components/DrumSequencer.tsx:104-105 | the Sequence passes steps 0..15 cyclically, tick n landing on step n mod 16 |
| DrumSequencer.ClampVolume | src/app/components/DrumSequencer.tsx:183 | the typed volume is clamped into [-60, 0], in-range values pass unchanged |
| DrumSequencer.Sequencer.constructor | src/app/components/DrumSequencer.tsx:27-34 | current step -1, all ten tracks active, all volumes -10, no synths and no running sequence |
| DrumSequencer.Sequencer.SynthsReady | src/app/components/DrumSequencer.tsx:36-56 | synth creation records the synths and changes nothing else |
| DrumSequencer.Sequencer.PlaybackChanged | src/app/components/DrumSequencer.tsx:58-62 | the sequence runs iff playing with synths; otherwise the current step is -1 |
| DrumSequencer.Sequencer.Tick | src/app/components/DrumSequencer.tsx:64-106 | the Sequence callback on tick n sets the current step to n mod 16 and returns exactly that step's triggers under the current mute flags |
| DrumSequencer.Sequencer.ToggleTrack | src/app/components/DrumSequencer.tsx:142-146 | only track i's mute flag flips |
| DrumSequencer.Sequencer.VolumeChange | src/app/components/DrumSequencer.tsx:121-130 | only volume i changes, to the given value |
| DrumSequencer.Sequencer.VolumeInput | src/app/components/DrumSequencer.tsx:183 | the number input writes the clamped value, in [-60, 0], to volume i only |
| TimelinePosition.Trunc | src/app/components/Timeline.tsx:91-92 | truncation toward zero: the result is within one of x on the side of zero |
| TimelinePosition.RawStep | src/app/components/Timeline.tsx:87-97 | a position in seconds counts bpm/15 sixteenths per second; a position of another kind counts as step 0 |
| TimelinePosition.JsRem | src/app/components/Timeline.tsx:99 | ECMAScript remainder: in [0, m) for a non-negative dividend, in (-m, 0] for a negative one |
| TimelinePosition.RemIsRemainder | src/app/components/Timeline.tsx:99 | the remainder is x minus m times the truncated quotient |
| TimelinePosition.PlayheadStep | src/app/components/Timeline.tsx:87-99 | the wrapped step lies in (-16, 16), is non-negative for a non-negative position, and is the raw step itself when that is in [0, 16) |
| TimelinePosition.MusicalStep | src/app/components/Timeline.tsx:89-94 | a `bars:quarters:sixteenths` position is worth 16 bars + 4 quarters + sixteenths steps |
| TimelinePosition.ScrubFields | src/app/components/Timeline.tsx:151-155 | the scrub encoding has three fields: whole non-negative bars, whole quarters in [0, 4), sixteenths in [0, 4) |
| TimelinePosition.ScrubRoundTrip | src/app/components/Timeline.tsx:141-155 | the position written by a scrub to step s reads back as s |
| TimelinePosition.ScrubThenPlayhead | src/app/components/Timeline.tsx:87-155 | after a scrub to a step in [0, 16) the playhead shows that same step |
| TimelineEdits.FindNote | src/app/components/Timeline.tsx:271-273 | the first index in the slot holding a note record with the id, skipping legacy strings; none exactly when no record has it |
| TimelineEdits.RemoveAt | src/app/components/Timeline.tsx:280 | the splice removes exactly one occurrence of the entry at k |
| TimelineEdits.Moved | src/app/components/Timeline.tsx:266-289 | a move commit emits a pattern exactly when it changes slot or duplicates and the origin slot holds a note record with the id, and the emitted pattern keeps the slot count |
| TimelineEdits.MoveEmitsIff | src/app/components/Timeline.tsx:266-275 | a move commit emits a pattern iff (target differs or it duplicates) and the id is found among note records of the origin slot |
| TimelineEdits.MoveShape | src/app/components/Timeline.tsx:278-283 | after a move every slot other than origin and target is unchanged and the target ends with the moved note |
| TimelineEdits.DuplicateShape | src/app/components/Timeline.tsx:284-289 | after a duplicate only the target changes, by one appended copy with the same note, duration and instrument |
| TimelineEdits.MovePreservesEntries | src/app/components/Timeline.tsx:278-283 | a plain move keeps the count of every entry, every id and the total note count |
| TimelineEdits.DuplicateAddsOne | src/app/components/Timeline.tsx:284-289 | a duplicate adds exactly one note, under the fresh id, and keeps ids unique when the fresh id is unused |
| TimelineEdits.MoveKeepsUniqueIds | src/app/components/Timeline.tsx:278-283 | a plain move keeps note ids unique |
| TimelineEdits.MoveThereAndBack | src/app/components/Timeline.tsx:278-283 | moving the last note of a slot away and back restores the pattern |
| TimelineEdits.FirstSlotWith | src/app/components/Timeline.tsx:300-302 | the first slot, in order, that holds a note record with the id; none exactly when no slot has one |
| TimelineEdits.NewDuration | src/app/components/Timeline.tsx:304 | the recorded duration when there is a non-zero one, else the note's old duration |
| TimelineEdits.Resized | src/app/components/Timeline.tsx:293-307 | resize keeps the slot count and every slot's length, and leaves the pattern unchanged when no slot holds the id |
| TimelineEdits.CommitResize | src/app/components/Timeline.tsx:298-308 | the copy-and-scan loop with `break` yields the resize transform |
| TimelineEdits.ResizeOnlyDuration | src/app/components/Timeline.tsx:293-307 | resize rewrites only the duration of the first matching note; no match leaves the pattern unchanged |
| TimelineEdits.ResizeKeepsIds | src/app/components/Timeline.tsx:300-307 | resize keeps every id count, so unique ids stay unique |
| TimelineEdits.ResizeRoundTrip | src/app/components/Timeline.tsx:300-307 | resizing a note to a duration and back to the old one restores the pattern |
| TimelineEdits.WithoutId | src/app/components/Timeline.tsx:326 | the filter drops exactly the note records with the id and keeps every other entry, legacy strings included |
| TimelineEdits.Deleted | src/app/components/Timeline.tsx:325-327 | delete keeps the slot count and removes the id's notes from every slot |
| TimelineEdits.DeletedKeeps | src/app/components/Timeline.tsx:325-327 | delete keeps every other entry of every slot, with its multiplicity |
| TimelineEdits.DeleteIdCounts | src/app/components/Timeline.tsx:325-327 | after delete the id occurs nowhere and every other id keeps its count |
| TimelineEdits.DeleteKeepsUniqueIds | src/app/components/Timeline.tsx:325-327 | delete keeps note ids unique |
| TimelineEdits.DeleteIdempotent | src/app/components/Timeline.tsx:325-327 | deleting twice equals deleting once, and deleting an absent id changes nothing |
| TimelineEdits.DropEffect | src/app/components/Timeline.tsx:167-187 | no payload: nothing; a kind already on the track: rejected; otherwise added |
| TimelineEdits.DropAppends | src/app/components/Timeline.tsx:179-185 | an accepted drop appends an enabled effect of that kind with the fresh id, changes no other track and keeps kinds unique |
| TimelineEdits.DropTwiceRejected | src/app/components/Timeline.tsx:173-177 | dropping the same kind again on that track is rejected |
| TimelineEdits.WithoutEffect | src/app/components/Timeline.tsx:191 | removal keeps exactly the effects with other ids and keeps kinds unique |
| TimelineEdits.WithoutEffectConcat | src/app/components/Timeline.tsx:191 | the filter of a + b is the filter of a followed by the filter of b, so survivors keep their order |
| TimelineEdits.WithoutEffectSingle | src/app/components/Timeline.tsx:191 | a single effect survives exactly when its id differs |
| TimelineEdits.RemoveEffect | src/app/components/Timeline.tsx:189-193 | the track map gains the track's key if it had none, and every other track keeps its list |
| TimelineEdits.RemoveEffectSpec | src/app/components/Timeline.tsx:189-193 | remove filters the id out of that track's list, keeps kinds unique and changes no other track |
| TimelineEdits.RemoveEffectKeepsOrder | src/app/components/Timeline.tsx:189-193 | for every split of the track's list, the result is the survivors of the front followed by the survivors of the back |
| TimelineEditor.Clamp | src/app/components/Timeline.tsx:245 | the value clamped into [lo, hi]; in-range values pass unchanged |
| TimelineEditor.MoveCandidate | src/app/components/Timeline.tsx:243-245 | the move preview step lies in [0, 15] and is origin + diff when that is in range |
| TimelineEditor.ResizeCandidate | src/app/components/Timeline.tsx:250-252 | the resize preview lies in [1, 16] and is the old duration + diff when that is in range |
| TimelineEditor.NextTrackHeight | src/app/components/Timeline.tsx:402-403 | the shift-wheel track height stays in [32, 128], moving by 5 when that stays in range |
| TimelineEditor.Editor.constructor | src/app/components/Timeline.tsx:53-72 | select tool, no selection, idle drag, not scrubbing, time 0 and track height 64 |
| TimelineEditor.Editor.SetTool | src/app/components/Timeline.tsx:339-350 | only the tool changes |
| TimelineEditor.Editor.NoteMouseDown | src/app/components/Timeline.tsx:206-237 | with the select tool, selects the note and starts a resize on the right edge or a move (with the alt flag) elsewhere; other tools change nothing |
| TimelineEditor.Editor.GlobalMouseMove | src/app/components/Timeline.tsx:239-256 | a move drag records the clamped candidate step, a resize drag the clamped duration; the patterns never change |
| TimelineEditor.Editor.GlobalMouseUp | src/app/components/Timeline.tsx:258-312 | ends any drag, emitting the move, duplicate or resize result exactly as the transforms say, and keeps the editor invariant with unique ids |
| TimelineEditor.Editor.Delete | src/app/components/Timeline.tsx:323-330 | with a selection, emits the pattern with that id deleted and clears the selection; with none, nothing happens |
| TimelineEditor.Editor.DropEffectOn | src/app/components/Timeline.tsx:167-187 | the effect lists change exactly as an accepted drop says, and stay unchanged otherwise |
| TimelineEditor.Editor.RemoveEffectFrom | src/app/components/Timeline.tsx:189-193 | the effect lists become the remove result |
| TimelineEditor.Editor.Scrub | src/app/components/Timeline.tsx:141-156 | sets scrubbing and the clamped step, and writes a position that reads back as that step |
| TimelineEditor.Editor.ScrubEnd | src/app/components/Timeline.tsx:158-160 | only the scrub flag clears |
| TimelineEditor.Editor.PlayheadFrame | src/app/components/Timeline.tsx:85-112 | while playing and not scrubbing the time is the wrapped playhead step; otherwise it is kept |
| TimelineEditor.Editor.Wheel | src/app/components/Timeline.tsx:395-404 | shift without alt steps the track height by 5 within [32, 128]; nothing else changes |
| TimelineEditor.Editor.DrumCellMouseDown | src/app/components/Timeline.tsx:599-602 | pressing a drawn (active) drum hit toggles exactly that cell, switching it off |
| AudioRender.VoiceByName | src/app/utils/audioExport.ts:92-104 | by name: Kick and Tom are membranes, Clap and Shaker noise, Hi-Hat, Rim, Crash, Ride and Cowbell metal; the Snare is noise for 808/Trap, metal for Rim, else a membrane; unknown names are membranes |
| AudioRender.VoiceTable | src/app/utils/audioExport.ts:92-104 | Kick and Tom are membranes; Snare is noise for 808/Trap, metal for Rim, else membrane; Hi-Hat, Rim, Crash, Ride and Cowbell are metal; Clap and Shaker are noise |
| AudioRender.OptionsMatchVoice | src/app/utils/audioExport.ts:57-104 | the option bag chosen for a drum and variant belongs to the family of its voice or is empty |
| AudioRender.OptionsFor | src/app/utils/audioExport.ts:57-90 | every drum name gets a non-empty option bag of its voice's family; any other name gets the empty bag |
| AudioRender.EffectiveBpm | src/app/utils/audioExport.ts:108 | a zero tempo becomes 120, any other is kept |
| AudioRender.StepDuration | src/app/utils/audioExport.ts:110 | a step lasts a quarter of a beat: duration times tempo is 15 seconds, positive at positive tempo |
| AudioRender.RenderDuration | src/app/utils/audioExport.ts:108-111 | the render lasts the sixteen steps, 240/bpm seconds, plus one second |
| AudioRender.DefaultTiming | src/app/utils/audioExport.ts:108-111 | with no tempo a step is 0.125 s and the render is 3 s long |
| AudioRender.DrumTypeFor | src/app/utils/audioExport.ts:119 | the preset's drum type for the row when present and non-empty, else 'Modern' |
| AudioRender.DrumHitFor | src/app/utils/audioExport.ts:156-171 | a noise voice gets a pitchless '8n'; otherwise drum 0 C1/8n, 1 C2/8n, 4 C3/8n, others G4/16n, at the given time |
| AudioRender.DrumEventsSpec | src/app/utils/audioExport.ts:146-177 | an event is in the drum schedule iff it is the hit of an active cell (d, s) at time s times the step duration, with time non-negative |
| AudioRender.DrumEventsCount | src/app/utils/audioExport.ts:146-177 | each trigger occurs in the drum schedule as often as there are firing cells whose trigger it is |
| AudioRender.InstrumentOf | src/app/utils/audioExport.ts:182 | legacy strings and notes without an instrument id use 'basic'; others use their instrument id |
| AudioRender.UsedInstrumentIds | src/app/utils/audioExport.ts:126-134 | the nested loop over slots and entries collects exactly the set of instruments the notes use |
| AudioRender.InstrumentLookups | src/app/utils/audioExport.ts:126-184 | every note's instrument is in the set and every id in the set is some note's instrument, so every lookup succeeds |
| AudioRender.SynthHitFor | src/app/utils/audioExport.ts:186-191 | a legacy string plays for '8n'; a note plays its pitch for duration-steps times the step duration, on its instrument |
| AudioRender.SynthEventsSpec | src/app/utils/audioExport.ts:179-195 | an event is in the synth schedule iff it is the hit of some entry of slot i at time i times the step duration, with time non-negative |
| AudioRender.SynthEventsCount | src/app/utils/audioExport.ts:179-195 | each trigger occurs in the synth schedule as often as there are firing entries whose trigger it is |
| AudioRender.DrumCellScheduled | src/app/utils/audioExport.ts:147-170 | at non-negative tempo every active drum cell's hit is in the render schedule |
| AudioRender.SynthEntryScheduled | src/app/utils/audioExport.ts:179-191 | at non-negative tempo every synth entry's hit is in the render schedule |
| AudioRender.ScheduleCount | src/app/utils/audioExport.ts:107-203 | renderPattern schedules each trigger once per firing drum cell plus once per firing synth entry that produces it |
| WavWriter.LE16Reads | src/app/utils/audioExport.ts:249-252 | the two bytes setUint16 stores read back little-endian as v mod 2^16 |
| WavWriter.LE32Reads | src/app/utils/audioExport.ts:254-257 | the four bytes setUint32 stores read back little-endian as v mod 2^32 |
| WavWriter.Small16 | src/app/utils/audioExport.ts:249-252 | a 16-bit field reads back as the value written |
| WavWriter.Small32 | src/app/utils/audioExport.ts:254-257 | a 32-bit field reads back as the value written |
| WavWriter.Int16RoundTrip | src/app/utils/audioExport.ts:243 | a signed sample written little-endian reads back as itself |
| WavWriter.SampleRead | src/app/utils/audioExport.ts:241-243 | the two bytes stored for a sample read back as its clamped, scaled 16-bit value |
| WavWriter.ChunkTags | src/app/utils/audioExport.ts:219-232 | the four magic numbers are the ASCII tags RIFF, WAVE, 'fmt ' and data |
| WavWriter.RiffFields | src/app/utils/audioExport.ts:219-221 | the RIFF chunk holds the RIFF tag, length - 8 and the WAVE tag |
| WavWriter.FmtFields | src/app/utils/audioExport.ts:223-230 | the fmt chunk holds size 16, PCM 1, channels, rate, rate*2*channels, channels*2 and 16 bits |
| WavWriter.DataHeadFields | src/app/utils/audioExport.ts:232-233 | the data chunk head holds the data tag and length - 44 |
| WavWriter.HeaderFields | src/app/utils/audioExport.ts:219-233 | the 44-byte header reads back as all thirteen fields of the WAVE form |
| WavWriter.Header | src/app/utils/audioExport.ts:219-233 | the header is 44 bytes long |
| WavWriter.Sample16 | src/app/utils/audioExport.ts:241-242 | every sample is in the int16 range and keeps the input's sign; full scale maps to 32767 and -32768 |
| WavWriter.DataFrom | src/app/utils/audioExport.ts:239-247 | the data written for frames from..to is 2 * channels bytes per frame, nothing when to <= from |
| WavWriter.WavAsWritten | src/app/utils/audioExport.ts:207-260 | the file as written is frames * channels * 2 + 44 bytes long |
| WavWriter.WavIntended | src/app/utils/audioExport.ts:207-260 | the corrected file has the same length, frames * channels * 2 + 44 bytes |
| WavWriter.SameHeader | src/app/utils/audioExport.ts:209-233 | both writers put the header for length frames*channels*2 + 44 first |
| WavWriter.IntendedSample | src/app/utils/audioExport.ts:239-247 | in the corrected writer, sample i of frame f sits at 44 + 2*channels*f + 2i |
| WavWriter.AsWrittenSample | src/app/utils/audioExport.ts:239-247 | as written, data position of frame f - 44 holds frame f, for 44 <= f < n |
| WavWriter.AsWrittenSilentTail | src/app/utils/audioExport.ts:239-247 | as written, the last 2*channels*min(n, 44) bytes stay zero |
| WavWriter.FirstFramesLost | src/app/utils/audioExport.ts:239 | a one-frame full-scale mono buffer is written as silence, while the corrected writer stores 0x7FFF |
| WavWriter.Store | src/app/utils/audioExport.ts:249-257 | the setters write the bytes at the position and leave the rest of the zero-filled buffer as it was |
| WavWriter.WriteFmt | src/app/utils/audioExport.ts:223-230 | the setter calls write exactly the fmt chunk |
| WavWriter.WriteHeader | src/app/utils/audioExport.ts:219-233 | the setter calls write exactly the header and leave the position at 44 |
| WavWriter.WriteSamples | src/app/utils/audioExport.ts:239-247 | the interleaving loop writes exactly the data for frames from `first` to n after the header |
| WavWriter.WriteFrame | src/app/utils/audioExport.ts:240-246 | one pass of the frame loop appends frame f after frames first..f-1 and moves the offset by 2*channels |
| WavWriter.WriteChannels | src/app/utils/audioExport.ts:240-245 | the channel loop stores exactly frame f's samples, channel by channel, at the data offset |
| WavWriter.BufferToWav | src/app/utils/audioExport.ts:207-260 | the serialiser as written produces exactly the as-written file, header then frames 44.. then zeros |
| WavWriter.BufferToWavFixed | src/app/utils/audioExport.ts:207-260 | the serialiser with the frame index starting at 0 produces the intended file |
| Presets.GridOf | src/app/components/PresetControls.tsx:18-22 | the grid built from a cell rule is 10x16 and holds the rule's value in every cell |
| Presets.TypesOf | src/app/components/PresetControls.tsx:23-27 | ten drum types, each the rule applied to that drum's name |
| Presets.SlotsOf | src/app/components/PresetControls.tsx:28-31 | sixteen synth slots of legacy strings, each the rule's list for that slot |
| Presets.DefaultPresets | src/app/components/PresetControls.tsx:14-172 | there are eight built-in presets |
| Presets.DefaultsShape | src/app/components/PresetControls.tsx:14-172 | eight built-in presets, each with 10x16 grid, ten drum types and sixteen legacy synth slots, all names distinct |
| Presets.TechnoTable | src/app/components/PresetControls.tsx:15-32 | Techno: kick on every fourth step, hi-hat on odd steps, other rows empty, C2 and C3 on slots with i mod 4 = 2 |
| Presets.FindByName | src/app/components/PresetControls.tsx:220 | the first preset with that name; none exactly when no preset has it |
| Presets.FindInConcat | src/app/components/PresetControls.tsx:220 | searching a + b finds in a first and only then in b |
| Presets.WithoutName | src/app/components/PresetControls.tsx:228 | the filter keeps exactly the presets with other names, and everything when none matches |
| Presets.WithoutNameConcat | src/app/components/PresetControls.tsx:228 | the filter of a + b is the filter of a followed by the filter of b, so survivors keep their order |
| Presets.ExportFilename | src/app/components/PresetControls.tsx:240-256 | the file is named after the selected preset, else the typed name, else 'Current-Project', with the format's extension |
| Presets.ShowDelete | src/app/components/PresetControls.tsx:350 | the delete button shows iff a preset is selected and no built-in has that name |
| Presets.BlankIffTrimsToEmpty | src/app/components/PresetControls.tsx:199 | a name is blank exactly when trimming white space and line terminators leaves the empty string |
| Presets.Controls.constructor | src/app/components/PresetControls.tsx:185-196 | starts with the saved user presets, an empty name and no selection |
| Presets.Controls.TypeName | src/app/components/PresetControls.tsx:297 | typing sets only the name |
| Presets.Controls.Save | src/app/components/PresetControls.tsx:198-214 | a blank name changes nothing; otherwise one preset with current bpm, grids and types is appended and the name is cleared |
| Presets.Controls.Load | src/app/components/PresetControls.tsx:216-224 | records the selection; an empty name loads nothing, otherwise the first match in built-ins then user presets |
| Presets.Controls.Delete | src/app/components/PresetControls.tsx:226-233 | removes every user preset with the name and clears the selection |
| Presets.DefaultsShadowUserPresets | src/app/components/PresetControls.tsx:220 | a built-in name always loads the built-in, whatever user presets exist |
| Presets.SaveThenLoad | src/app/components/PresetControls.tsx:209-220 | a preset saved under a fresh name is what loading that name returns |
| Presets.DeleteThenLoad | src/app/components/PresetControls.tsx:220-228 | after deleting a name, loading it finds only a built-in of that name |
| App.EmptyGrid | src/app/App.tsx:9-11 | a well-formed 10x16 grid with every cell off |
| App.PlayPauseCommand | src/app/App.tsx:20-24 | pause when playing and start otherwise, never stop, so the transport runs iff it did not before |
| App.Session.constructor | src/app/App.tsx:8-11 | not playing, transport stopped, all-off grid |
| App.Session.PlayPause | src/app/App.tsx:17-27 | flips the play flag and leaves the transport running exactly when the flag is set |
| App.Session.Stop | src/app/App.tsx:29-32 | the transport stops and the flag clears whatever the state, so a second stop changes nothing |
| App.Session.Reset | src/app/App.tsx:13-15 | the grid becomes the all-off grid; playback is untouched |
| App.Session.ToggleCell | src/app/components/DrumSequencer.tsx:115-119 | the grid handed back by the sequencer is the toggled grid; playback is untouched |

## Left out

- The Tone.js audio graph is not modelled: synth construction, `Tone.Offline`, `Sequence`, `triggerAttackRelease`, `dispose`, `toDestination` and the transport setters. Triggers and render events are records, and the drum option bags (audioExport.ts:57-90) are constant values.
- `createInstrumentSynth` is not modelled (audioExport.ts:13-51). It depends on the `PRESETS` table of src/app/components/Synthesizer.tsx, which is not part of this model. Only the set of instrument ids that must be created is modelled; the id-to-synth `Map` is not.
- `bufferToMp3` is not modelled: it runs FFmpeg compiled to WebAssembly, asynchronously.
- `downloadBlob`, `alert`, `confirm` and `localStorage` are not modelled: they are DOM and persistence. Confirm is taken as accepted, and the saved list is the constructor argument.
- `crypto.randomUUID` is replaced by id parameters. `TimelineEditor.Editor.GlobalMouseUp` requires the fresh id to be unused in the pattern, where the source relies on UUIDs not colliding.
- `TimelineEditor.Editor.constructor` and the editor invariant `Valid()` require `UniqueIds` of the synth pattern (no two note records share an id) and `EffectsValid` of the effect lists (at most one effect of each kind per track). The source does not check either: ids come only from `crypto.randomUUID`, and kinds only from the drop handler, which already rejects a kind present on the track.
- Zoom is not modelled (steps of 0.1 within [0.5, 2] on alt-wheel), and the `Wheel` model leaves that branch without effect.
- `generateWaveformPath` is not modelled: it draws only and uses `Math.random` and `sin`.
- `toFixed(2)` and the string form of the transport position are not modelled. The position is modelled as its list of numeric fields, so the round trip is exact where the source rounds the sixteenths to two decimals.
- `Math.round` of a pixel ratio is replaced by an integer `diffSteps` argument.
- `getStepFromX` is not modelled: it is not called by the edit handlers.
- JavaScript's auto-extension of a short synth pattern (`newPattern[newStep] = []`) is not needed: the editor invariant keeps sixteen slots.
- The `create` drag kind is not modelled: no handler ever starts one.
- The optional note `velocity` is carried through edits but never read: `SynthNote` holds it as `Option<real>`, move, duplicate and resize copy it, and the render ignores it as the source does.
- `TimelineEditor.Editor.DropEffectOn` requires the drag payload to be empty or a known effect name. Only the effect palette (`handleDragStartEffect`) sets that payload.
- The parent callbacks (`onSynthPatternChange`, `onTrackEffectsChange`, `onPatternChange`) are not modelled as separate components. The editor and the session own the patterns, and the commits return the emitted value.
- `TimelineEditor.Editor.DrumCellMouseDown` requires an active cell: the timeline only draws active drum hits, so only those can be pressed.
- The `requestAnimationFrame` playhead loop and React effect lifecycles are host scheduling, not modelled. `PlayheadFrame` is one frame of the loop, `PlaybackChanged` one run of the sequence effect.
- `Tone.start()` in play/pause is not modelled: it only unlocks the browser's audio context.
- Double-precision rounding and NaN are not modelled: arithmetic is exact over `real`. `WavWriter.Sample16` computes the exact product before truncation, which can differ from the double product in the last place. A non-numeric volume input (NaN) is not modelled.
- The rendering-only files are not modelled: InstrumentVisuals.tsx, SplineScene.tsx, Synthesizer.tsx and TransportControls.tsx.
- `AudioRender.DrumCellScheduled` and `AudioRender.SynthEntryScheduled` require a non-negative tempo. At negative tempo the times are negative and the source's own `time >= 0` guard drops the events, which `DrumEventsSpec` and `SynthEventsSpec` state.

Notes on the code's own behaviour:

- The sample conversion at audioExport.ts:242 tests `0.5 + sample < 0`, that is `sample < -0.5`. `WavWriter.Sample16` models that test as written: samples in [-0.5, 0) are scaled by 32767, not 32768. Its range and sign are still correct, so it is not listed as a finding.
- The export file name chain at PresetControls.tsx:256 has four alternatives. The third is redundant, because the project name is itself the typed name or 'Current-Project'. `Presets.ExportFilename` proves the chain equals the three-way choice.

## Findings

| source | as written | input that shows it | evidently intended | confidence | as-written member | corrected member |
|---|---|---|---|---|---|---|
| src/app/utils/audioExport.ts:239 | the sample loop reuses `pos` as its frame index, and `pos` is 44 after the header. Frames 0..43 are never written: the data chunk holds frames 44..n-1 and the last 2*channels*min(n, 44) bytes stay zero | one channel, one frame of value 1.0 at 44100 Hz: bytes 44..45 are `00 00`, where 0x7FFF (`FF 7F`) belongs | the frame index starts at 0, so frame f sits at byte 44 + 2*channels*f | not executed | WavWriter.FirstFramesLost | WavWriter.BufferToWavFixed |
