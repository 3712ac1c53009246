/** Preset management (src/app/components/PresetControls.tsx): the eight built-in
    presets, each table generated from a per-(row, step) rule, and the
    save / load / delete operations on the list of user presets. */
module Presets {
  import opened Types
  import DrumSequencer

  /** A preset. `synthPattern` and `drumTypes` are optional. */
  datatype Preset = Preset(
    name: string,
    bpm: real,
    pattern: seq<seq<bool>>,
    synthPattern: Option<SynthPattern>,
    drumTypes: Option<seq<string>>)

  // ---------------------------------------------------------------- tables

  /** `DRUMS.map((_, i) => Array(STEPS).fill(false).map((__, j) => cell(i, j)))` */
  function GridOf(cell: (int, int) -> bool): (g: seq<seq<bool>>)
    ensures DrumSequencer.WellFormed(g)
    ensures forall i, j :: 0 <= i < |DrumSequencer.DrumNames| && 0 <= j < DrumSequencer.Steps ==> g[i][j] == cell(i, j)
  {
    seq(|DrumSequencer.DrumNames|, i => seq(DrumSequencer.Steps, j => cell(i, j)))
  }

  /** `DRUMS.map(d => kind(d.name))` */
  function TypesOf(kind: string -> string): (ts: seq<string>)
    ensures |ts| == |DrumSequencer.DrumNames|
    ensures forall i :: 0 <= i < |ts| ==> ts[i] == kind(DrumSequencer.DrumNames[i])
  {
    seq(|DrumSequencer.DrumNames|, i requires 0 <= i < |DrumSequencer.DrumNames| => kind(DrumSequencer.DrumNames[i]))
  }

  /** `Array(STEPS).fill([]).map((_, i) => slot(i))`, the note names kept as
      legacy entries. */
  function SlotsOf(slot: int -> seq<string>): (p: SynthPattern)
    ensures IsStepPattern(p)
    ensures forall i :: 0 <= i < |p| ==> |p[i]| == |slot(i)|
    ensures forall i, k :: 0 <= i < |p| && 0 <= k < |p[i]| ==> p[i][k] == Legacy(slot(i)[k])
  {
    seq(PatternSlots, i => seq(|slot(i)|, k requires 0 <= k < |slot(i)| => Legacy(slot(i)[k])))
  }

  function TechnoCell(i: int, j: int): bool {
    if i == 0 then j % 4 == 0 else if i == 2 then j % 2 == 1 else false
  }
  function TechnoType(name: string): string {
    if name == "Kick" then "909" else if name == "Hi-Hat" then "Closed" else "Modern"
  }
  function TechnoSlot(i: int): seq<string> {
    if i % 4 == 2 then ["C2", "C3"] else []
  }

  function HipHopCell(i: int, j: int): bool {
    if i == 0 then j == 0 || j == 7 || j == 10
    else if i == 1 then j == 4 || j == 12
    else if i == 2 then j % 2 == 0
    else false
  }
  function HipHopType(name: string): string {
    if name == "Kick" then "808" else if name == "Snare" then "Trap" else if name == "Hi-Hat" then "Trap" else "808"
  }
  function HipHopSlot(i: int): seq<string> {
    if i == 0 then ["C2"] else if i == 8 then ["G2"] else []
  }

  function HouseCell(i: int, j: int): bool {
    if i == 0 then j % 4 == 0
    else if i == 2 then j % 2 == 1
    else if i == 3 then j == 4 || j == 12
    else false
  }
  function HouseType(name: string): string {
    "Modern"
  }
  function HouseSlot(i: int): seq<string> {
    if i == 0 then ["C2"] else if i == 2 then ["C2"] else if i == 3 then ["E2"]
    else if i == 4 then ["G2"] else if i == 6 then ["A2"] else if i == 8 then ["C2"]
    else if i == 10 then ["C2"] else if i == 12 then ["G2"] else if i == 14 then ["Bb2"]
    else []
  }

  function TrapCell(i: int, j: int): bool {
    if i == 0 then j == 0 || j == 10
    else if i == 1 then j == 8
    else if i == 2 then j % 2 == 0 || j % 3 == 0
    else false
  }
  function TrapType(name: string): string {
    if name == "Kick" then "Distorted" else if name == "Snare" then "Trap" else if name == "Hi-Hat" then "Trap" else "808"
  }
  function TrapSlot(i: int): seq<string> {
    if i == 0 then ["D2"] else if i == 3 then ["D2"] else if i == 6 then ["F2"] else []
  }

  function PopCell(i: int, j: int): bool {
    if i == 0 then j == 0 || j == 8 else if i == 1 then j == 4 || j == 12 else false
  }
  function PopType(name: string): string {
    if name == "Snare" then "808" else "Modern"
  }
  function PopSlot(i: int): seq<string> {
    if i % 2 == 0 then ["C3", "E3", "G3"] else []
  }

  function LofiCell(i: int, j: int): bool {
    if i == 0 then j == 0 || j == 8 || j == 11
    else if i == 1 then j == 4 || j == 12
    else if i == 2 then j % 2 == 0
    else false
  }
  function LofiType(name: string): string {
    "Acoustic"
  }
  function LofiSlot(i: int): seq<string> {
    if i == 0 then ["E3", "G3", "B3"] else if i == 8 then ["D3", "F#3", "A3"] else []
  }

  function DnbCell(i: int, j: int): bool {
    if i == 0 then j == 0 || j == 10 else if i == 1 then j == 4 || j == 12 else i == 2
  }
  function DnbType(name: string): string {
    if name == "Snare" then "Rim" else "Modern"
  }
  function DnbSlot(i: int): seq<string> {
    if i == 0 then ["F2"] else if i == 2 then ["C3"] else if i == 10 then ["F2"] else []
  }

  function DubstepCell(i: int, j: int): bool {
    if i == 0 then j == 0 else if i == 1 then j == 8 else if i == 2 then j % 2 == 0 else false
  }
  function DubstepType(name: string): string {
    if name == "Kick" then "Distorted" else if name == "Snare" then "Trap" else "808"
  }
  function DubstepSlot(i: int): seq<string> {
    if i == 0 || i == 1 then ["D1", "D2"] else []
  }

  function Built(name: string, bpm: real, cell: (int, int) -> bool, kind: string -> string, slot: int -> seq<string>): Preset {
    Preset(name, bpm, GridOf(cell), Some(SlotsOf(slot)), Some(TypesOf(kind)))
  }

  /** DEFAULT_PRESETS, in order. */
  function DefaultPresets(): (ps: seq<Preset>)
    ensures |ps| == 8
  {
    [ Built("Techno", 130.0, TechnoCell, TechnoType, TechnoSlot),
      Built("Hip Hop", 90.0, HipHopCell, HipHopType, HipHopSlot),
      Built("House", 124.0, HouseCell, HouseType, HouseSlot),
      Built("Trap", 140.0, TrapCell, TrapType, TrapSlot),
      Built("80s Pop", 110.0, PopCell, PopType, PopSlot),
      Built("Lofi", 80.0, LofiCell, LofiType, LofiSlot),
      Built("DnB", 174.0, DnbCell, DnbType, DnbSlot),
      Built("Dubstep", 140.0, DubstepCell, DubstepType, DubstepSlot) ]
  }

  /** The shape every preset the application hands to the sequencer has. */
  predicate Complete(p: Preset) {
    && DrumSequencer.WellFormed(p.pattern)
    && p.drumTypes.Some? && |p.drumTypes.value| == |DrumSequencer.DrumNames|
    && p.synthPattern.Some? && IsStepPattern(p.synthPattern.value)
  }

  predicate AllLegacy(sp: SynthPattern) {
    forall i, k :: 0 <= i < |sp| && 0 <= k < |sp[i]| ==> sp[i][k].Legacy?
  }

  lemma DefaultsShape()
    ensures |DefaultPresets()| == 8
    ensures forall i :: 0 <= i < |DefaultPresets()| ==>
              Complete(DefaultPresets()[i]) && AllLegacy(DefaultPresets()[i].synthPattern.value)
    ensures forall i, j :: 0 <= i < j < |DefaultPresets()| ==> DefaultPresets()[i].name != DefaultPresets()[j].name
  {
    var ds := DefaultPresets();
    forall i | 0 <= i < |ds|
      ensures Complete(ds[i]) && AllLegacy(ds[i].synthPattern.value)
    {
    }
  }

  /** The Techno preset: kick on every beat, hi-hat on the off sixteenths,
      nothing else, and a two-note bass on every third sixteenth of a beat. */
  lemma TechnoTable()
    ensures var t := DefaultPresets()[0];
            t.name == "Techno" && t.bpm == 130.0
            && (forall j :: 0 <= j < 16 ==> (t.pattern[0][j] <==> j % 4 == 0))
            && (forall j :: 0 <= j < 16 ==> (t.pattern[2][j] <==> j % 2 == 1))
            && (forall i, j :: 0 <= i < 10 && i != 0 && i != 2 && 0 <= j < 16 ==> !t.pattern[i][j])
            && (forall i :: 0 <= i < 16 ==>
                  t.synthPattern.value[i] == if i % 4 == 2 then [Legacy("C2"), Legacy("C3")] else [])
            && t.drumTypes.value[0] == "909" && t.drumTypes.value[2] == "Closed" && t.drumTypes.value[1] == "Modern"
  {
    var t := DefaultPresets()[0];
    forall i | 0 <= i < 16
      ensures t.synthPattern.value[i] == if i % 4 == 2 then [Legacy("C2"), Legacy("C3")] else []
    {
      if i % 4 == 2 {
        assert |t.synthPattern.value[i]| == 2;
      } else {
        assert |t.synthPattern.value[i]| == 0;
      }
    }
  }

  // ------------------------------------------------------------ list edits

  /** `find(p => p.name === name)` */
  function FindByName(ps: seq<Preset>, name: string): (r: Option<Preset>)
    ensures r.Some? ==> r.value in ps && r.value.name == name
    ensures r.Some? ==> exists i :: 0 <= i < |ps| && ps[i] == r.value && forall j :: 0 <= j < i ==> ps[j].name != name
    ensures r.None? <==> forall i :: 0 <= i < |ps| ==> ps[i].name != name
  {
    if |ps| == 0 then None
    else if ps[0].name == name then Some(ps[0])
    else
      var r := FindByName(ps[1..], name);
      assert r.Some? ==> exists i :: 0 <= i < |ps[1..]| && ps[1..][i] == r.value && forall j :: 0 <= j < i ==> ps[1..][j].name != name;
      assert r.Some? ==> exists i :: 1 <= i < |ps| && ps[i] == r.value && forall j :: 0 <= j < i ==> ps[j].name != name
        by {
          if r.Some? {
            var i :| 0 <= i < |ps[1..]| && ps[1..][i] == r.value && forall j :: 0 <= j < i ==> ps[1..][j].name != name;
            assert ps[i + 1] == r.value;
            assert forall j :: 0 <= j < i + 1 ==> ps[j].name != name by {
              forall j | 0 <= j < i + 1 ensures ps[j].name != name {
                if j > 0 { assert ps[j] == ps[1..][j - 1]; }
              }
            }
          }
        }
      r
  }

  /** Searching a concatenation searches the front list first. */
  lemma {:induction false} FindInConcat(a: seq<Preset>, b: seq<Preset>, name: string)
    ensures FindByName(a + b, name) == if FindByName(a, name).Some? then FindByName(a, name) else FindByName(b, name)
    decreases |a|
  {
    if |a| > 0 {
      assert (a + b)[1..] == a[1..] + b;
      FindInConcat(a[1..], b, name);
    } else {
      assert a + b == b;
    }
  }

  /** `filter(p => p.name !== name)` */
  function WithoutName(ps: seq<Preset>, name: string): (r: seq<Preset>)
    ensures forall p :: p in r <==> p in ps && p.name != name
    ensures |r| <= |ps|
    ensures (forall i :: 0 <= i < |ps| ==> ps[i].name != name) ==> r == ps
  {
    if |ps| == 0 then []
    else
      assert ps == [ps[0]] + ps[1..];
      (if ps[0].name == name then [] else [ps[0]]) + WithoutName(ps[1..], name)
  }

  /** The filter works piecewise: the survivors of `a + b` are the survivors
      of `a` followed by those of `b`, so a kept preset stays where it was
      relative to every other kept one. */
  lemma {:induction false} WithoutNameConcat(a: seq<Preset>, b: seq<Preset>, name: string)
    ensures WithoutName(a + b, name) == WithoutName(a, name) + WithoutName(b, name)
  {
    if |a| == 0 {
      assert a + b == b;
    } else {
      assert (a + b)[1..] == a[1..] + b;
      WithoutNameConcat(a[1..], b, name);
    }
  }

  /** `!s.trim()`: the text is empty or made only of the characters
      ECMAScript's trim removes (white space and line terminators). */
  predicate IsBlank(s: string) {
    forall i :: 0 <= i < |s| ==> IsTrimmed(s[i])
  }

  /** The front half of String.prototype.trim: white space and line
      terminators are dropped from the start. */
  function TrimStart(s: string): (r: string)
    ensures |r| <= |s| && r == s[|s| - |r|..]
  {
    if |s| > 0 && IsTrimmed(s[0]) then TrimStart(s[1..]) else s
  }

  /** A name is blank exactly when trimming leaves nothing. */
  lemma {:induction false} BlankIffTrimsToEmpty(s: string)
    ensures IsBlank(s) <==> TrimStart(s) == ""
  {
    if |s| > 0 {
      BlankIffTrimsToEmpty(s[1..]);
      assert forall i :: 1 <= i < |s| ==> s[1..][i - 1] == s[i];
    }
  }

  predicate IsTrimmed(c: char) {
    || c == '\t' || c == '\n' || c == '\U{B}' || c == '\U{C}' || c == '\r' || c == ' '
    || c == '\U{A0}' || c == '\U{1680}' || ('\U{2000}' <= c <= '\U{200A}')
    || c == '\U{2028}' || c == '\U{2029}' || c == '\U{202F}' || c == '\U{205F}'
    || c == '\U{3000}' || c == '\U{FEFF}'
  }

  datatype ExportFormat = Wav | Mp3

  function FormatExtension(f: ExportFormat): string {
    match f
    case Wav => "wav"
    case Mp3 => "mp3"
  }

  /** The download name of an export. The code tries the selected preset, the
      typed name, the project preset's name (itself the typed name or
      'Current-Project') and 'Current-Project', so the name is the first
      non-empty of the selected preset and the typed name, else
      'Current-Project'. */
  function ExportFilename(selectedPreset: string, presetName: string, format: ExportFormat): (f: string)
    ensures var base := if selectedPreset != "" then selectedPreset
                        else if presetName != "" then presetName
                        else "Current-Project";
            f == base + "." + FormatExtension(format)
  {
    var projectName := if presetName != "" then presetName else "Current-Project";
    var base := if selectedPreset != "" then selectedPreset
                else if presetName != "" then presetName
                else if projectName != "" then projectName
                else "Current-Project";
    base + "." + FormatExtension(format)
  }

  /** The delete button is offered for a selected, non-built-in preset name. */
  function ShowDelete(selectedPreset: string): (shown: bool)
    ensures shown <==> selectedPreset != "" && forall i :: 0 <= i < |DefaultPresets()| ==> DefaultPresets()[i].name != selectedPreset
  {
    selectedPreset != "" && FindByName(DefaultPresets(), selectedPreset).None?
  }

  /** The preset panel: the user's saved presets, the typed name and the
      selected preset name (owned by the parent, updated through
      onSelectPreset). */
  class Controls {
    var presets: seq<Preset>
    var presetName: string
    var selectedPreset: string

    constructor (saved: seq<Preset>)
      ensures presets == saved && presetName == "" && selectedPreset == ""
    {
      presets := saved;
      presetName := "";
      selectedPreset := "";
    }

    /** The name field. */
    method TypeName(s: string)
      modifies this
      ensures presetName == s && presets == old(presets) && selectedPreset == old(selectedPreset)
    {
      presetName := s;
    }

    /** Save: a blank name saves nothing; otherwise the current project is
        appended under the typed name and the field is cleared. */
    method Save(bpm: real, pattern: seq<seq<bool>>, synthPattern: SynthPattern, drumTypes: seq<string>)
      modifies this
      ensures IsBlank(old(presetName)) ==> presets == old(presets) && presetName == old(presetName)
      ensures !IsBlank(old(presetName)) ==>
                presets == old(presets) + [Preset(old(presetName), bpm, pattern, Some(synthPattern), Some(drumTypes))]
                && presetName == ""
      ensures selectedPreset == old(selectedPreset)
    {
      if IsBlank(presetName) {
        return;
      }
      var newPreset := Preset(presetName, bpm, pattern, Some(synthPattern), Some(drumTypes));
      presets := presets + [newPreset];
      presetName := "";
    }

    /** Load: records the selection; an empty name loads nothing, otherwise
        the first preset of that name, built-ins searched first. */
    method Load(name: string) returns (loaded: Option<Preset>)
      modifies this
      ensures selectedPreset == name
      ensures name == "" ==> loaded.None?
      ensures name != "" ==> loaded == FindByName(DefaultPresets() + presets, name)
      ensures presets == old(presets) && presetName == old(presetName)
    {
      selectedPreset := name;
      if name == "" {
        return None;
      }
      loaded := FindByName(DefaultPresets() + presets, name);
    }

    /** Delete (confirmed): every user preset of that name goes, and the
        selection is cleared. */
    method Delete(name: string)
      modifies this
      ensures presets == WithoutName(old(presets), name)
      ensures selectedPreset == "" && presetName == old(presetName)
    {
      presets := WithoutName(presets, name);
      selectedPreset := "";
    }
  }

  /** A built-in preset shadows every user preset of the same name. */
  lemma DefaultsShadowUserPresets(user: seq<Preset>, name: string)
    requires FindByName(DefaultPresets(), name).Some?
    ensures FindByName(DefaultPresets() + user, name) == FindByName(DefaultPresets(), name)
  {
    FindInConcat(DefaultPresets(), user, name);
  }

  /** A preset saved under a fresh name (no built-in or earlier user preset
      has it) is what loading that name returns. */
  lemma SaveThenLoad(user: seq<Preset>, p: Preset)
    requires FindByName(DefaultPresets(), p.name).None? && FindByName(user, p.name).None?
    ensures FindByName(DefaultPresets() + (user + [p]), p.name) == Some(p)
  {
    FindInConcat(DefaultPresets(), user + [p], p.name);
    FindInConcat(user, [p], p.name);
  }

  /** After deleting a name, loading it finds only a built-in of that name. */
  lemma DeleteThenLoad(user: seq<Preset>, name: string)
    ensures FindByName(WithoutName(user, name), name).None?
    ensures FindByName(DefaultPresets() + WithoutName(user, name), name) == FindByName(DefaultPresets(), name)
  {
    var r := WithoutName(user, name);
    assert forall i :: 0 <= i < |r| ==> r[i] in r;
    FindInConcat(DefaultPresets(), r, name);
  }
}
