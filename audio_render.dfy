/** Offline rendering of a project (src/app/utils/audioExport.ts): which kind of
    drum voice each row gets, the option bag it is built with, the set of synth
    instruments to build, and the list of note events scheduled on the
    transport. The audio engine that consumes the events is not modelled. */
module AudioRender {
  import opened Types
  import DrumSequencer
  import opened Presets

  // ------------------------------------------------------ drum voices

  datatype VoiceKind = NoiseVoice | MetalVoice | MembraneVoice

  predicate IsNoise(name: string, variant: string) {
    (name == "Snare" && (variant == "808" || variant == "Trap")) || name == "Clap" || name == "Shaker"
  }

  predicate IsMetal(name: string, variant: string) {
    name == "Hi-Hat" || (name == "Snare" && variant == "Rim") || name in ["Rim", "Crash", "Ride", "Cowbell"]
  }

  /** The synth class createDrumSynth picks: noise first, then metal, else
      membrane. */
  function VoiceOf(name: string, variant: string): VoiceKind {
    if IsNoise(name, variant) then NoiseVoice
    else if IsMetal(name, variant) then MetalVoice
    else MembraneVoice
  }

  /** The voice of each drum name: only the Snare depends on the variant, and
      a name outside the drum list falls through to a membrane. */
  lemma VoiceByName(name: string, variant: string)
    ensures name == "Kick" || name == "Tom" ==> VoiceOf(name, variant) == MembraneVoice
    ensures name == "Snare" ==>
              VoiceOf(name, variant) == if variant == "808" || variant == "Trap" then NoiseVoice
                                        else if variant == "Rim" then MetalVoice
                                        else MembraneVoice
    ensures name == "Clap" || name == "Shaker" ==> VoiceOf(name, variant) == NoiseVoice
    ensures name == "Hi-Hat" || name == "Rim" || name == "Crash" || name == "Ride" || name == "Cowbell" ==>
              VoiceOf(name, variant) == MetalVoice
    ensures name !in DrumSequencer.DrumNames ==> VoiceOf(name, variant) == MembraneVoice
  {
  }

  /** The voice of every drum row, by row: Kick and Tom are always membranes;
      the Snare is noise as 808 or Trap, metal as Rim, else a membrane; Clap
      and Shaker are noise; Hi-Hat, Rim, Crash, Ride and Cowbell are metal. */
  lemma VoiceTable(variant: string)
    ensures VoiceOf(DrumSequencer.DrumNames[0], variant) == MembraneVoice
    ensures VoiceOf(DrumSequencer.DrumNames[1], variant)
            == if variant == "808" || variant == "Trap" then NoiseVoice
               else if variant == "Rim" then MetalVoice
               else MembraneVoice
    ensures VoiceOf(DrumSequencer.DrumNames[2], variant) == MetalVoice
    ensures VoiceOf(DrumSequencer.DrumNames[3], variant) == NoiseVoice
    ensures VoiceOf(DrumSequencer.DrumNames[4], variant) == MembraneVoice
    ensures forall i :: 5 <= i <= 8 ==> VoiceOf(DrumSequencer.DrumNames[i], variant) == MetalVoice
    ensures VoiceOf(DrumSequencer.DrumNames[9], variant) == NoiseVoice
  {
    assert DrumSequencer.DrumNames[2] != "Snare";
    forall i | 5 <= i <= 8
      ensures VoiceOf(DrumSequencer.DrumNames[i], variant) == MetalVoice
    {
      assert DrumSequencer.DrumNames[i] in ["Rim", "Crash", "Ride", "Cowbell"];
    }
  }

  /** The envelope part of an option bag; absent fields are None. */
  datatype Envelope = Envelope(attack: Option<real>, decay: Option<real>, sustain: Option<real>, release: Option<real>)

  /** The option bag of a drum synth; absent fields are None. */
  datatype DrumOptions = DrumOptions(
    pitchDecay: Option<real>,
    octaves: Option<real>,
    oscillator: Option<string>,
    envelope: Option<Envelope>,
    noise: Option<string>,
    frequency: Option<real>,
    harmonicity: Option<real>,
    modulationIndex: Option<real>)

  const NoOptions := DrumOptions(None, None, None, None, None, None, None, None)

  function Decay(d: real): Envelope {
    Envelope(None, Some(d), None, None)
  }

  function MembraneOpts(pitchDecay: real, octaves: real): DrumOptions {
    NoOptions.(pitchDecay := Some(pitchDecay), octaves := Some(octaves))
  }

  function MetalOpts(frequency: real, env: Envelope): DrumOptions {
    NoOptions.(frequency := Some(frequency), envelope := Some(env))
  }

  function NoiseOpts(color: string, env: Envelope): DrumOptions {
    NoOptions.(noise := Some(color), envelope := Some(env))
  }

  /** getOptions: the option bag for a drum name and variant. */
  function OptionsFor(name: string, variant: string): (o: DrumOptions)
    ensures o == NoOptions <==> name !in DrumSequencer.DrumNames
    ensures o != NoOptions ==>
              match VoiceOf(name, variant)
              case NoiseVoice => o.noise.Some? && o.frequency.None? && o.pitchDecay.None?
              case MetalVoice => o.frequency.Some? && o.noise.None? && o.pitchDecay.None?
              case MembraneVoice => o.pitchDecay.Some? && o.octaves.Some? && o.noise.None? && o.frequency.None?
  {
    if name == "Kick" then
      if variant == "808" then
        MembraneOpts(0.05, 4.0).(oscillator := Some("sine"),
                                 envelope := Some(Envelope(Some(0.001), Some(0.4), Some(0.01), Some(1.4))))
      else if variant == "Acoustic" then MembraneOpts(0.05, 2.0).(oscillator := Some("sine"))
      else if variant == "Distorted" then MembraneOpts(0.08, 2.5)
      else MembraneOpts(0.05, 2.0)
    else if name == "Snare" then
      if variant == "808" then NoiseOpts("white", Decay(0.2))
      else if variant == "Trap" then NoiseOpts("pink", Decay(0.15))
      else if variant == "Rim" then MetalOpts(200.0, Decay(0.05))
      else MembraneOpts(0.05, 2.0)
    else if name == "Hi-Hat" then
      if variant == "Trap" then MetalOpts(400.0, Decay(0.05)).(harmonicity := Some(5.1), modulationIndex := Some(32.0))
      else MetalOpts(200.0, Decay(0.1))
    else if name == "Clap" then NoiseOpts("white", Decay(0.1))
    else if name == "Tom" then
      if variant == "808" then MembraneOpts(0.1, 2.0) else MembraneOpts(0.08, 4.0)
    else if name == "Rim" then MetalOpts(400.0, Decay(0.05))
    else if name == "Crash" then MetalOpts(150.0, Envelope(None, Some(2.0), None, Some(3.0)))
    else if name == "Ride" then MetalOpts(800.0, Decay(0.5))
    else if name == "Cowbell" then MetalOpts(540.0, Decay(0.2))
    else if name == "Shaker" then NoiseOpts("white", Envelope(Some(0.005), Some(0.05), None, None))
    else NoOptions
  }

  /** The option bag of every drum row belongs to the family of the synth it
      configures: a noise colour for noise voices, a frequency for metal
      voices, a pitch decay and octave range for membranes. */
  lemma OptionsMatchVoice(i: nat, variant: string)
    requires i < |DrumSequencer.DrumNames|
    ensures var name := DrumSequencer.DrumNames[i];
            var o := OptionsFor(name, variant);
            match VoiceOf(name, variant)
            case NoiseVoice => o.noise.Some? && o.frequency.None? && o.pitchDecay.None?
            case MetalVoice => o.frequency.Some? && o.noise.None? && o.pitchDecay.None?
            case MembraneVoice => o.pitchDecay.Some? && o.octaves.Some? && o.noise.None? && o.frequency.None?
  {
    VoiceTable(variant);
  }

  // ------------------------------------------------------------ timing

  /** `preset.bpm || 120` */
  function EffectiveBpm(bpm: real): (b: real)
    ensures b != 0.0
    ensures bpm != 0.0 ==> b == bpm
  {
    if bpm != 0.0 then bpm else 120.0
  }

  /** The length of a sixteenth note in seconds: a quarter of a beat. */
  function StepDuration(bpm: real): (d: real)
    ensures d * EffectiveBpm(bpm) == 15.0
    ensures EffectiveBpm(bpm) > 0.0 ==> d > 0.0
  {
    60.0 / EffectiveBpm(bpm) / 4.0
  }

  /** The rendered length: the sixteen steps plus one second of release. */
  function RenderDuration(bpm: real): (r: real)
    ensures (r - 1.0) * EffectiveBpm(bpm) == 240.0
    ensures EffectiveBpm(bpm) > 0.0 ==> r > 1.0
  {
    StepDuration(bpm) * 16.0 + 1.0
  }

  lemma DefaultTiming()
    ensures StepDuration(0.0) == 0.125 && RenderDuration(0.0) == 3.0
    ensures StepDuration(120.0) == 0.125
  {
  }

  /** `drumTypes && drumTypes[i] ? drumTypes[i] : 'Modern'` */
  function DrumTypeFor(types: Option<seq<string>>, i: nat): (t: string)
    ensures t != ""
    ensures types.Some? && i < |types.value| && types.value[i] != "" ==> t == types.value[i]
    ensures types.None? || i >= |types.value| || types.value[i] == "" ==> t == "Modern"
  {
    if types.Some? && i < |types.value| && types.value[i] != "" then types.value[i] else "Modern"
  }

  // ------------------------------------------------------------ events

  /** A note length: a notation value ('8n', '16n') or seconds. */
  datatype NoteLength = Notation(value: string) | InSeconds(t: real)

  /** One scheduled trigger. A NoiseSynth is triggered with a length only. */
  datatype RenderEvent =
    | DrumHit(drum: nat, pitch: Option<string>, length: NoteLength, time: real)
    | SynthHit(instrument: string, note: string, length: NoteLength, time: real)

  /** The trigger a drum row's synth receives for one active cell. */
  function DrumHitFor(d: nat, variant: string, time: real): (e: RenderEvent)
    requires d < |DrumSequencer.DrumNames|
    ensures e.DrumHit? && e.drum == d && e.time == time
    ensures VoiceOf(DrumSequencer.DrumNames[d], variant) == NoiseVoice ==> e.pitch.None? && e.length == Notation("8n")
    ensures VoiceOf(DrumSequencer.DrumNames[d], variant) != NoiseVoice ==>
              e.pitch.Some?
              && (d == 0 ==> e.pitch.value == "C1" && e.length == Notation("8n"))
              && (d == 1 ==> e.pitch.value == "C2" && e.length == Notation("8n"))
              && (d == 4 ==> e.pitch.value == "C3" && e.length == Notation("8n"))
              && (d !in {0, 1, 4} ==> e.pitch.value == "G4" && e.length == Notation("16n"))
  {
    if VoiceOf(DrumSequencer.DrumNames[d], variant) == NoiseVoice then DrumHit(d, None, Notation("8n"), time)
    else if d == 0 then DrumHit(d, Some("C1"), Notation("8n"), time)
    else if d == 1 || d == 4 then DrumHit(d, Some(if d == 4 then "C3" else "C2"), Notation("8n"), time)
    else DrumHit(d, Some("G4"), Notation("16n"), time)
  }

  /** Whether the drum cell (d, s) is scheduled: it is on, its row has a synth
      (rows past the ten drums throw, and the error is caught), and its start
      time is not negative. */
  predicate DrumCellFires(pattern: seq<seq<bool>>, stepDur: real, d: nat, s: nat) {
    d < |pattern| && s < |pattern[d]| && pattern[d][s]
    && d < |DrumSequencer.DrumNames| && s as real * stepDur >= 0.0
  }

  function DrumCellEvents(pattern: seq<seq<bool>>, types: Option<seq<string>>, stepDur: real, d: nat, s: nat): seq<RenderEvent> {
    if DrumCellFires(pattern, stepDur, d, s) then [DrumHitFor(d, DrumTypeFor(types, d), s as real * stepDur)] else []
  }

  /** Concatenation of a list of lists, written from the back. */
  function Concat<T>(xss: seq<seq<T>>): seq<T> {
    if |xss| == 0 then [] else Concat(xss[..|xss| - 1]) + xss[|xss| - 1]
  }

  lemma {:induction false} ConcatMember<T>(xss: seq<seq<T>>, x: T)
    ensures x in Concat(xss) <==> exists i :: 0 <= i < |xss| && x in xss[i]
    decreases |xss|
  {
    if |xss| > 0 {
      var n := |xss| - 1;
      ConcatMember(xss[..n], x);
      assert forall i :: 0 <= i < n ==> xss[..n][i] == xss[i];
    }
  }

  /** One row's events, steps in order. */
  function DrumRowEvents(pattern: seq<seq<bool>>, types: Option<seq<string>>, stepDur: real, d: nat): seq<RenderEvent>
    requires d < |pattern|
  {
    Concat(seq(|pattern[d]|, s requires 0 <= s < |pattern[d]| => DrumCellEvents(pattern, types, stepDur, d, s)))
  }

  /** The drum schedule: rows in order, each row's steps in order. */
  function DrumEvents(pattern: seq<seq<bool>>, types: Option<seq<string>>, stepDur: real): seq<RenderEvent> {
    Concat(seq(|pattern|, d requires 0 <= d < |pattern| => DrumRowEvents(pattern, types, stepDur, d)))
  }

  /** An event is in the drum schedule iff it is the trigger, at time
      s·stepDuration, of a cell (d, s) that fires; DrumEventsCount gives how
      many times. */
  lemma DrumEventsSpec(pattern: seq<seq<bool>>, types: Option<seq<string>>, stepDur: real, e: RenderEvent)
    ensures e in DrumEvents(pattern, types, stepDur) <==>
              exists d: nat, s: nat :: DrumCellFires(pattern, stepDur, d, s)
                                       && e == DrumHitFor(d, DrumTypeFor(types, d), s as real * stepDur)
  {
    var rows := seq(|pattern|, d requires 0 <= d < |pattern| => DrumRowEvents(pattern, types, stepDur, d));
    ConcatMember(rows, e);
    forall d | 0 <= d < |pattern|
      ensures e in rows[d] <==> exists s: nat :: DrumCellFires(pattern, stepDur, d, s)
                                                && e == DrumHitFor(d, DrumTypeFor(types, d), s as real * stepDur)
    {
      var cells := seq(|pattern[d]|, s requires 0 <= s < |pattern[d]| => DrumCellEvents(pattern, types, stepDur, d, s));
      ConcatMember(cells, e);
      if e in rows[d] {
        var s :| 0 <= s < |cells| && e in cells[s];
        assert DrumCellFires(pattern, stepDur, d, s);
      }
      if exists s: nat :: DrumCellFires(pattern, stepDur, d, s) && e == DrumHitFor(d, DrumTypeFor(types, d), s as real * stepDur) {
        var s: nat :| DrumCellFires(pattern, stepDur, d, s) && e == DrumHitFor(d, DrumTypeFor(types, d), s as real * stepDur);
        assert e in cells[s];
      }
    }
  }

  /** Number of times x occurs in the parts of xss, added part by part. */
  function PartsCount<T(==)>(xss: seq<seq<T>>, x: T): nat {
    if |xss| == 0 then 0 else PartsCount(xss[..|xss| - 1], x) + multiset(xss[|xss| - 1])[x]
  }

  lemma {:induction false} ConcatCount<T>(xss: seq<seq<T>>, x: T)
    ensures multiset(Concat(xss))[x] == PartsCount(xss, x)
    decreases |xss|
  {
    if |xss| > 0 {
      ConcatCount(xss[..|xss| - 1], x);
    }
  }

  /** 1 when cell (d, s) fires with trigger e, else 0. */
  function CellHits(pattern: seq<seq<bool>>, types: Option<seq<string>>, stepDur: real, d: nat, s: nat, e: RenderEvent): nat {
    if DrumCellFires(pattern, stepDur, d, s) && DrumHitFor(d, DrumTypeFor(types, d), s as real * stepDur) == e then 1 else 0
  }

  /** How many of the first n cells of row d fire with trigger e. */
  function RowFiringCount(pattern: seq<seq<bool>>, types: Option<seq<string>>, stepDur: real, d: nat, n: nat, e: RenderEvent): nat {
    if n == 0 then 0
    else RowFiringCount(pattern, types, stepDur, d, n - 1, e) + CellHits(pattern, types, stepDur, d, n - 1, e)
  }

  /** How many firing cells of the first m rows have trigger e. */
  function FiringCount(pattern: seq<seq<bool>>, types: Option<seq<string>>, stepDur: real, m: nat, e: RenderEvent): nat
    requires m <= |pattern|
  {
    if m == 0 then 0
    else FiringCount(pattern, types, stepDur, m - 1, e) + RowFiringCount(pattern, types, stepDur, m - 1, |pattern[m - 1]|, e)
  }

  lemma CellEventsCount(pattern: seq<seq<bool>>, types: Option<seq<string>>, stepDur: real, d: nat, s: nat, e: RenderEvent)
    ensures multiset(DrumCellEvents(pattern, types, stepDur, d, s))[e] == CellHits(pattern, types, stepDur, d, s, e)
  {
  }

  lemma {:induction false} RowEventsCount(pattern: seq<seq<bool>>, types: Option<seq<string>>, stepDur: real, d: nat,
                                          cells: seq<seq<RenderEvent>>, e: RenderEvent)
    requires forall s :: 0 <= s < |cells| ==> cells[s] == DrumCellEvents(pattern, types, stepDur, d, s)
    ensures PartsCount(cells, e) == RowFiringCount(pattern, types, stepDur, d, |cells|, e)
    decreases |cells|
  {
    if |cells| > 0 {
      var n := |cells| - 1;
      RowEventsCount(pattern, types, stepDur, d, cells[..n], e);
      CellEventsCount(pattern, types, stepDur, d, n, e);
    }
  }

  lemma {:induction false} RowsEventsCount(pattern: seq<seq<bool>>, types: Option<seq<string>>, stepDur: real,
                                           rows: seq<seq<RenderEvent>>, e: RenderEvent)
    requires |rows| <= |pattern|
    requires forall d :: 0 <= d < |rows| ==> rows[d] == DrumRowEvents(pattern, types, stepDur, d)
    ensures PartsCount(rows, e) == FiringCount(pattern, types, stepDur, |rows|, e)
    decreases |rows|
  {
    if |rows| > 0 {
      var d := |rows| - 1;
      RowsEventsCount(pattern, types, stepDur, rows[..d], e);
      var cells := seq(|pattern[d]|, s requires 0 <= s < |pattern[d]| => DrumCellEvents(pattern, types, stepDur, d, s));
      ConcatCount(cells, e);
      RowEventsCount(pattern, types, stepDur, d, cells, e);
    }
  }

  /** The drum schedule holds one trigger per firing cell: e occurs in it as
      many times as there are firing cells whose trigger is e. */
  lemma DrumEventsCount(pattern: seq<seq<bool>>, types: Option<seq<string>>, stepDur: real, e: RenderEvent)
    ensures multiset(DrumEvents(pattern, types, stepDur))[e] == FiringCount(pattern, types, stepDur, |pattern|, e)
  {
    var rows := seq(|pattern|, d requires 0 <= d < |pattern| => DrumRowEvents(pattern, types, stepDur, d));
    ConcatCount(rows, e);
    RowsEventsCount(pattern, types, stepDur, rows, e);
  }

  /** `typeof n !== 'string' && n.instrumentId ? n.instrumentId : 'basic'` */
  function InstrumentOf(e: SlotEntry): (id: string)
    ensures id != ""
    ensures e.Legacy? ==> id == "basic"
    ensures e.Note? && e.n.instrumentId.Some? && e.n.instrumentId.value != "" ==> id == e.n.instrumentId.value
    ensures e.Note? && (e.n.instrumentId.None? || e.n.instrumentId.value == "") ==> id == "basic"
  {
    if e.Note? && e.n.instrumentId.Some? && e.n.instrumentId.value != "" then e.n.instrumentId.value else "basic"
  }

  /** The instruments the render needs: one per distinct instrument id used by
      an entry of the synth pattern. */
  function InstrumentIds(sp: Option<SynthPattern>): set<string> {
    if sp.None? then {}
    else set i, k | 0 <= i < |sp.value| && 0 <= k < |sp.value[i]| :: InstrumentOf(sp.value[i][k])
  }

  /** The collection pass: loops over slots and entries adding each entry's
      instrument id to a set. */
  method UsedInstrumentIds(sp: Option<SynthPattern>) returns (used: set<string>)
    ensures used == InstrumentIds(sp)
  {
    used := {};
    if sp.None? {
      return;
    }
    var p := sp.value;
    var i := 0;
    while i < |p|
      invariant 0 <= i <= |p|
      invariant used == set a, k | 0 <= a < i && 0 <= k < |p[a]| :: InstrumentOf(p[a][k])
    {
      var k := 0;
      while k < |p[i]|
        invariant 0 <= k <= |p[i]|
        invariant used == (set a, m | 0 <= a < i && 0 <= m < |p[a]| :: InstrumentOf(p[a][m]))
                          + (set m | 0 <= m < k :: InstrumentOf(p[i][m]))
      {
        used := used + {InstrumentOf(p[i][k])};
        k := k + 1;
      }
      i := i + 1;
    }
  }

  /** Every entry finds its synth in the instrument map, and every built
      synth is used by some entry. */
  lemma InstrumentLookups(sp: SynthPattern)
    ensures forall i, k :: 0 <= i < |sp| && 0 <= k < |sp[i]| ==> InstrumentOf(sp[i][k]) in InstrumentIds(Some(sp))
    ensures forall id :: id in InstrumentIds(Some(sp)) ==>
              exists i, k :: 0 <= i < |sp| && 0 <= k < |sp[i]| && InstrumentOf(sp[i][k]) == id
  {
  }

  /** The length in seconds of a note held for `steps` steps. */
  function HeldFor(stepDur: real, steps: int): real {
    stepDur * steps as real
  }

  /** The trigger of one synth entry: a legacy name plays an eighth note, a
      note record its duration in steps times the step length. */
  function SynthHitFor(e: SlotEntry, stepDur: real, time: real): (h: RenderEvent)
    ensures h.SynthHit? && h.instrument == InstrumentOf(e) && h.time == time
    ensures e.Legacy? ==> h.note == e.name && h.length == Notation("8n")
    ensures e.Note? ==> h.note == e.n.note && h.length == InSeconds(HeldFor(stepDur, e.n.durationSteps))
  {
    match e
    case Legacy(name) => SynthHit(InstrumentOf(e), name, Notation("8n"), time)
    case Note(n) => SynthHit(InstrumentOf(e), n.note, InSeconds(HeldFor(stepDur, n.durationSteps)), time)
  }

  /** Whether entry k of slot i is scheduled: its start time is not negative
      (its instrument always exists, by InstrumentLookups). */
  predicate SynthEntryFires(sp: SynthPattern, stepDur: real, i: nat, k: nat) {
    i < |sp| && k < |sp[i]| && i as real * stepDur >= 0.0
  }

  function SynthEntryEvents(sp: SynthPattern, stepDur: real, i: nat, k: nat): seq<RenderEvent> {
    if SynthEntryFires(sp, stepDur, i, k) then [SynthHitFor(sp[i][k], stepDur, i as real * stepDur)] else []
  }

  function SynthSlotEvents(sp: SynthPattern, stepDur: real, i: nat): seq<RenderEvent>
    requires i < |sp|
  {
    Concat(seq(|sp[i]|, k requires 0 <= k < |sp[i]| => SynthEntryEvents(sp, stepDur, i, k)))
  }

  /** The synth schedule: slots in order, each slot's entries in order. */
  function SynthEvents(sp: Option<SynthPattern>, stepDur: real): seq<RenderEvent> {
    if sp.None? then []
    else Concat(seq(|sp.value|, i requires 0 <= i < |sp.value| => SynthSlotEvents(sp.value, stepDur, i)))
  }

  /** An event is in the synth schedule iff it is the trigger of an entry of
      the pattern at its slot's start time, when that time is not negative. */
  lemma SynthEventsSpec(sp: SynthPattern, stepDur: real, e: RenderEvent)
    ensures e in SynthEvents(Some(sp), stepDur) <==>
              exists i: nat, k: nat :: SynthEntryFires(sp, stepDur, i, k)
                                       && e == SynthHitFor(sp[i][k], stepDur, i as real * stepDur)
  {
    var slots := seq(|sp|, i requires 0 <= i < |sp| => SynthSlotEvents(sp, stepDur, i));
    ConcatMember(slots, e);
    forall i | 0 <= i < |sp|
      ensures e in slots[i] <==> exists k: nat :: SynthEntryFires(sp, stepDur, i, k)
                                                 && e == SynthHitFor(sp[i][k], stepDur, i as real * stepDur)
    {
      var entries := seq(|sp[i]|, k requires 0 <= k < |sp[i]| => SynthEntryEvents(sp, stepDur, i, k));
      ConcatMember(entries, e);
      if e in slots[i] {
        var k :| 0 <= k < |entries| && e in entries[k];
        assert SynthEntryFires(sp, stepDur, i, k);
      }
      if exists k: nat :: SynthEntryFires(sp, stepDur, i, k) && e == SynthHitFor(sp[i][k], stepDur, i as real * stepDur) {
        var k: nat :| SynthEntryFires(sp, stepDur, i, k) && e == SynthHitFor(sp[i][k], stepDur, i as real * stepDur);
        assert e in entries[k];
      }
    }
  }

  /** 1 when entry k of slot i fires with trigger e, else 0. */
  function EntryHits(sp: SynthPattern, stepDur: real, i: nat, k: nat, e: RenderEvent): nat {
    if SynthEntryFires(sp, stepDur, i, k) && SynthHitFor(sp[i][k], stepDur, i as real * stepDur) == e then 1 else 0
  }

  /** How many of the first n entries of slot i fire with trigger e. */
  function SlotFiringCount(sp: SynthPattern, stepDur: real, i: nat, n: nat, e: RenderEvent): nat
    requires i < |sp| && n <= |sp[i]|
  {
    if n == 0 then 0
    else SlotFiringCount(sp, stepDur, i, n - 1, e) + EntryHits(sp, stepDur, i, n - 1, e)
  }

  /** How many firing entries of the first m slots have trigger e. */
  function EntryFiringCount(sp: SynthPattern, stepDur: real, m: nat, e: RenderEvent): nat
    requires m <= |sp|
  {
    if m == 0 then 0
    else EntryFiringCount(sp, stepDur, m - 1, e) + SlotFiringCount(sp, stepDur, m - 1, |sp[m - 1]|, e)
  }

  lemma EntryEventsCount(sp: SynthPattern, stepDur: real, i: nat, k: nat, e: RenderEvent)
    requires i < |sp| && k < |sp[i]|
    ensures multiset(SynthEntryEvents(sp, stepDur, i, k))[e] == EntryHits(sp, stepDur, i, k, e)
  {
  }

  lemma {:induction false} SlotEventsCount(sp: SynthPattern, stepDur: real, i: nat, entries: seq<seq<RenderEvent>>, e: RenderEvent)
    requires i < |sp| && |entries| <= |sp[i]|
    requires forall k :: 0 <= k < |entries| ==> entries[k] == SynthEntryEvents(sp, stepDur, i, k)
    ensures PartsCount(entries, e) == SlotFiringCount(sp, stepDur, i, |entries|, e)
    decreases |entries|
  {
    if |entries| > 0 {
      var n := |entries| - 1;
      SlotEventsCount(sp, stepDur, i, entries[..n], e);
      EntryEventsCount(sp, stepDur, i, n, e);
    }
  }

  lemma {:induction false} SlotsEventsCount(sp: SynthPattern, stepDur: real, slots: seq<seq<RenderEvent>>, e: RenderEvent)
    requires |slots| <= |sp|
    requires forall i :: 0 <= i < |slots| ==> slots[i] == SynthSlotEvents(sp, stepDur, i)
    ensures PartsCount(slots, e) == EntryFiringCount(sp, stepDur, |slots|, e)
    decreases |slots|
  {
    if |slots| > 0 {
      var i := |slots| - 1;
      SlotsEventsCount(sp, stepDur, slots[..i], e);
      var entries := seq(|sp[i]|, k requires 0 <= k < |sp[i]| => SynthEntryEvents(sp, stepDur, i, k));
      ConcatCount(entries, e);
      SlotEventsCount(sp, stepDur, i, entries, e);
    }
  }

  /** The synth schedule holds one trigger per firing entry: e occurs in it as
      many times as there are firing entries whose trigger is e. */
  lemma SynthEventsCount(sp: SynthPattern, stepDur: real, e: RenderEvent)
    ensures multiset(SynthEvents(Some(sp), stepDur))[e] == EntryFiringCount(sp, stepDur, |sp|, e)
  {
    var slots := seq(|sp|, i requires 0 <= i < |sp| => SynthSlotEvents(sp, stepDur, i));
    ConcatCount(slots, e);
    SlotsEventsCount(sp, stepDur, slots, e);
  }

  lemma MulNonNeg(a: real, b: real)
    requires a >= 0.0 && b >= 0.0
    ensures a * b >= 0.0
  {
  }

  /** Everything renderPattern schedules: the drums, then the synth notes. */
  function Schedule(p: Preset): seq<RenderEvent> {
    DrumEvents(p.pattern, p.drumTypes, StepDuration(p.bpm)) + SynthEvents(p.synthPattern, StepDuration(p.bpm))
  }

  /** With a non-negative tempo every start time is non-negative, so every on
      cell of the ten drum rows is scheduled at step·stepDuration ... */
  lemma DrumCellScheduled(p: Preset, d: nat, s: nat)
    requires p.bpm >= 0.0
    requires d < |p.pattern| && s < |p.pattern[d]| && p.pattern[d][s] && d < |DrumSequencer.DrumNames|
    ensures DrumHitFor(d, DrumTypeFor(p.drumTypes, d), s as real * StepDuration(p.bpm)) in Schedule(p)
  {
    var sd := StepDuration(p.bpm);
    MulNonNeg(s as real, sd);
    var e := DrumHitFor(d, DrumTypeFor(p.drumTypes, d), s as real * sd);
    assert DrumCellFires(p.pattern, sd, d, s);
    DrumEventsSpec(p.pattern, p.drumTypes, sd, e);
    var drums := DrumEvents(p.pattern, p.drumTypes, sd);
    assert e in drums;
    var all := drums + SynthEvents(p.synthPattern, sd);
    assert e in all;
    assert Schedule(p) == all;
    assert e == DrumHitFor(d, DrumTypeFor(p.drumTypes, d), s as real * StepDuration(p.bpm));
    assert e in Schedule(p);
  }

  lemma SynthEntryInEvents(sp: SynthPattern, sd: real, i: nat, k: nat)
    requires sd >= 0.0 && i < |sp| && k < |sp[i]|
    ensures SynthHitFor(sp[i][k], sd, i as real * sd) in SynthEvents(Some(sp), sd)
  {
    MulNonNeg(i as real, sd);
    var e := SynthHitFor(sp[i][k], sd, i as real * sd);
    assert SynthEntryFires(sp, sd, i, k) && e == SynthHitFor(sp[i][k], sd, i as real * sd);
    assert exists i': nat, k': nat :: SynthEntryFires(sp, sd, i', k') && e == SynthHitFor(sp[i'][k'], sd, i' as real * sd);
    SynthEventsSpec(sp, sd, e);
    assert e in SynthEvents(Some(sp), sd);
  }

  /** ... and so is every entry of the synth pattern, at its slot's start. */
  lemma SynthEntryScheduled(p: Preset, i: nat, k: nat)
    requires p.bpm >= 0.0
    requires p.synthPattern.Some? && i < |p.synthPattern.value| && k < |p.synthPattern.value[i]|
    ensures SynthHitFor(p.synthPattern.value[i][k], StepDuration(p.bpm), i as real * StepDuration(p.bpm)) in Schedule(p)
  {
    var sd := StepDuration(p.bpm);
    SynthEntryInEvents(p.synthPattern.value, sd, i, k);
    var e := SynthHitFor(p.synthPattern.value[i][k], sd, i as real * sd);
    var all := DrumEvents(p.pattern, p.drumTypes, sd) + SynthEvents(p.synthPattern, sd);
    assert e in all;
    assert Schedule(p) == all;
    assert e == SynthHitFor(p.synthPattern.value[i][k], StepDuration(p.bpm), i as real * StepDuration(p.bpm));
    assert e in Schedule(p);
  }

  /** renderPattern schedules each trigger once per firing drum cell and once
      per firing synth entry that produces it. */
  lemma ScheduleCount(p: Preset, e: RenderEvent)
    ensures multiset(Schedule(p))[e]
            == FiringCount(p.pattern, p.drumTypes, StepDuration(p.bpm), |p.pattern|, e)
               + (if p.synthPattern.Some? then EntryFiringCount(p.synthPattern.value, StepDuration(p.bpm), |p.synthPattern.value|, e) else 0)
  {
    var sd := StepDuration(p.bpm);
    DrumEventsCount(p.pattern, p.drumTypes, sd, e);
    if p.synthPattern.Some? {
      SynthEventsCount(p.synthPattern.value, sd, e);
    }
  }
}
