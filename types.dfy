/** The shared data model of the sequencer: synth notes, synth patterns,
    effect kinds and per-track effect lists (src/app/types.ts). */
module Types {

  datatype Option<+T> = None | Some(value: T)

  /** A synth pattern has one slot per step of the 16-step loop. */
  const PatternSlots: nat := 16

  /** A note record. `velocity` and `instrumentId` are optional. */
  datatype SynthNote = SynthNote(
    id: string,
    note: string,
    durationSteps: int,
    velocity: Option<real>,
    instrumentId: Option<string>)

  /** A slot holds note records, or (in patterns saved by older versions and in
      the default presets) bare note names. */
  datatype SlotEntry = Legacy(name: string) | Note(n: SynthNote)

  /** Slot i holds the entries whose onset is step i. */
  type SynthPattern = seq<seq<SlotEntry>>

  predicate IsStepPattern(p: SynthPattern) {
    |p| == PatternSlots
  }

  datatype EffectType =
    | Reverb | Delay | Distortion | Chorus | BitCrusher | Echo | Flanger
    | Limiter | Pitch | SoftClipper | StereoWidth | Compressor | EQ

  /** The string the application uses for each kind (also the drag payload). */
  function EffectName(k: EffectType): string {
    match k
    case Reverb => "Reverb"
    case Delay => "Delay"
    case Distortion => "Distortion"
    case Chorus => "Chorus"
    case BitCrusher => "BitCrusher"
    case Echo => "Echo"
    case Flanger => "Flanger"
    case Limiter => "Limiter"
    case Pitch => "Pitch"
    case SoftClipper => "Soft Clipper"
    case StereoWidth => "Stereo Width"
    case Compressor => "Compressor"
    case EQ => "EQ"
  }

  const AllEffectTypes: seq<EffectType> :=
    [Reverb, Delay, Distortion, Chorus, BitCrusher, Echo, Flanger,
     Limiter, Pitch, SoftClipper, StereoWidth, Compressor, EQ]

  /** Reads a drag payload back as an effect kind; the empty payload (and any
      text that names no kind) gives None. */
  function ParseEffectName(s: string): (r: Option<EffectType>)
    ensures r.Some? ==> EffectName(r.value) == s
  {
    if s == "Reverb" then Some(Reverb)
    else if s == "Delay" then Some(Delay)
    else if s == "Distortion" then Some(Distortion)
    else if s == "Chorus" then Some(Chorus)
    else if s == "BitCrusher" then Some(BitCrusher)
    else if s == "Echo" then Some(Echo)
    else if s == "Flanger" then Some(Flanger)
    else if s == "Limiter" then Some(Limiter)
    else if s == "Pitch" then Some(Pitch)
    else if s == "Soft Clipper" then Some(SoftClipper)
    else if s == "Stereo Width" then Some(StereoWidth)
    else if s == "Compressor" then Some(Compressor)
    else if s == "EQ" then Some(EQ)
    else None
  }

  /** There are exactly 13 effect kinds, all listed once. */
  lemma EffectKinds()
    ensures |AllEffectTypes| == 13
    ensures forall i, j :: 0 <= i < j < |AllEffectTypes| ==> AllEffectTypes[i] != AllEffectTypes[j]
    ensures forall k: EffectType :: k in AllEffectTypes
  {
    forall k: EffectType ensures k in AllEffectTypes {
      match k
      case Reverb =>
      case Delay =>
      case Distortion =>
      case Chorus =>
      case BitCrusher =>
      case Echo =>
      case Flanger =>
      case Limiter =>
      case Pitch =>
      case SoftClipper =>
      case StereoWidth =>
      case Compressor =>
      case EQ =>
    }
  }

  /** The names tell the kinds apart: every name parses back to its kind,
      and the empty payload is no kind. */
  lemma EffectNames()
    ensures forall k: EffectType :: ParseEffectName(EffectName(k)) == Some(k)
    ensures ParseEffectName("") == None
  {
    forall k: EffectType ensures ParseEffectName(EffectName(k)) == Some(k) {
      match k
      case Reverb =>
      case Delay =>
      case Distortion =>
      case Chorus =>
      case BitCrusher =>
      case Echo =>
      case Flanger =>
      case Limiter =>
      case Pitch =>
      case SoftClipper =>
      case StereoWidth =>
      case Compressor =>
      case EQ =>
    }
  }

  /** One effect of a track's chain. The parameter bag is opaque here. */
  datatype EffectConfig = EffectConfig(
    id: string,
    kind: EffectType,
    params: map<string, real>,
    enabled: bool)

  /** A track is the synth lane or drum lane i. */
  datatype TrackId = SynthTrack | DrumTrack(index: nat)

  /** Track id to its ordered effect chain. */
  type TrackEffects = map<TrackId, seq<EffectConfig>>

  // ---- decimal text of naturals, used for the string forms of track ids ----

  function DigitChar(d: nat): char
    requires d < 10
  {
    "0123456789"[d]
  }

  function DigitValue(c: char): nat {
    if '0' <= c <= '9' then (c as int - '0' as int) else 0
  }

  function NatToString(n: nat): (s: string)
    ensures |s| > 0
    ensures forall i :: 0 <= i < |s| ==> '0' <= s[i] <= '9'
    decreases n
  {
    if n < 10 then [DigitChar(n)] else NatToString(n / 10) + [DigitChar(n % 10)]
  }

  function ParseDigits(s: string): nat
    decreases |s|
  {
    if s == [] then 0 else ParseDigits(s[..|s| - 1]) * 10 + DigitValue(s[|s| - 1])
  }

  lemma {:induction false} ParseNatToString(n: nat)
    ensures ParseDigits(NatToString(n)) == n
    decreases n
  {
    var s := NatToString(n);
    if n < 10 {
      assert s[..|s| - 1] == [];
    } else {
      ParseNatToString(n / 10);
      assert s[..|s| - 1] == NatToString(n / 10);
    }
  }

  /** The key the application uses for a track: "synth" or "drum-i". */
  function TrackKey(t: TrackId): (k: string)
    ensures t.SynthTrack? <==> k == "synth"
    ensures t.DrumTrack? ==> |k| > 5 && k[..5] == "drum-"
  {
    match t
    case SynthTrack => "synth"
    case DrumTrack(i) => "drum-" + NatToString(i)
  }

  function TrackFromKey(s: string): Option<TrackId> {
    if s == "synth" then Some(SynthTrack)
    else if |s| > 5 && s[..5] == "drum-" && forall i :: 5 <= i < |s| ==> '0' <= s[i] <= '9'
    then Some(DrumTrack(ParseDigits(s[5..])))
    else None
  }

  /** Track keys are lossless: every key reads back as its track, so distinct
      tracks never share an effect list. */
  lemma {:induction false} TrackKeyRoundTrip(t: TrackId)
    ensures TrackFromKey(TrackKey(t)) == Some(t)
  {
    match t
    case SynthTrack =>
    case DrumTrack(i) =>
      var s := TrackKey(t);
      assert s[..5] == "drum-";
      assert s[5..] == NatToString(i);
      ParseNatToString(i);
  }
}
