/** Conversions between the transport's musical position and a step number of
    the 16-step loop: the playhead read-out and the position written while
    scrubbing the ruler (src/app/components/Timeline.tsx). */
module TimelinePosition {

  const TotalSteps: nat := 16

  /** Truncation toward zero: the integer parseInt reads from the decimal text
      of a number, and what `| 0` keeps of a small number. */
  function Trunc(x: real): (r: int)
    ensures x >= 0.0 ==> r as real <= x < r as real + 1.0
    ensures x < 0.0 ==> r as real - 1.0 < x <= r as real
  {
    if x >= 0.0 then x.Floor else -((-x).Floor)
  }

  lemma TruncOfInt(n: int)
    ensures Trunc(n as real) == n
  {
  }

  /** The signed fractional part left by truncation: in [0, 1) for a
      non-negative number and in (-1, 0] for a negative one. */
  function Frac(y: real): (f: real)
    ensures y >= 0.0 ==> 0.0 <= f < 1.0
    ensures y < 0.0 ==> -1.0 < f <= 0.0
    ensures f == y - Trunc(y) as real
  {
    y - Trunc(y) as real
  }

  /** JavaScript's `%` on numbers: the remainder of truncated division, so it
      takes the sign of the dividend. */
  function JsRem(x: real, m: real): (r: real)
    requires m > 0.0
    ensures x >= 0.0 ==> 0.0 <= r < m
    ensures x < 0.0 ==> -m < r <= 0.0
  {
    if x >= 0.0 then
      DivNonNeg(x, m);
      Scale(Frac(x / m), m)
    else
      DivNonNeg(-x, m);
      -Scale(Frac(-x / m), m)
  }

  /** m * f for a fraction f of the unit interval lies in [0, m). */
  function Scale(f: real, m: real): (p: real)
    requires m > 0.0 && 0.0 <= f < 1.0
    ensures 0.0 <= p < m
    ensures p == m * f
  {
    MulUnit(f, m);
    m * f
  }

  /** The remainder is what is left of x after taking away whole multiples of m. */
  lemma RemIsRemainder(x: real, m: real)
    requires m > 0.0
    ensures JsRem(x, m) == x - m * Trunc(x / m) as real
  {
    var y := x / m;
    var q := Trunc(y) as real;
    DivMul(x, m);
    Distrib(y, q, m);
    if x < 0.0 {
      assert -x / m == -y;
      assert Trunc(-y) as real == -q;
      Distrib(-y, -q, m);
      MulNeg(y - q, m);
    }
  }

  lemma DivMul(x: real, m: real)
    requires m > 0.0
    ensures m * (x / m) == x
  {
  }

  lemma Distrib(y: real, q: real, m: real)
    ensures m * y - m * q == m * (y - q)
  {
  }

  lemma MulUnit(d: real, m: real)
    requires m > 0.0 && 0.0 <= d < 1.0
    ensures 0.0 <= m * d < m
  {
  }

  lemma MulNeg(d: real, m: real)
    ensures m * -d == -(m * d)
  {
  }

  lemma DivNonNeg(x: real, m: real)
    requires m > 0.0 && x >= 0.0
    ensures x / m >= 0.0
  {
  }

  /** The position the transport reports: musical text `bars:quarters:sixteenths`
      split at its colons, a number of seconds, or text without a colon. */
  datatype TransportPosition = Musical(parts: seq<real>) | Seconds(t: real) | NoColon

  /** The contribution of field i to the playhead reduce: bars count 16 steps
      and quarters 4 (both read with parseInt), every later field counts as
      itself (read with parseFloat). */
  function FieldValue(i: nat, v: real): real {
    if i == 0 then Trunc(v) as real * 16.0
    else if i == 1 then Trunc(v) as real * 4.0
    else v
  }

  /** The reduce over the first n fields. */
  function FieldsSum(parts: seq<real>, n: nat): real
    requires n <= |parts|
  {
    if n == 0 then 0.0 else FieldsSum(parts, n - 1) + FieldValue(n - 1, parts[n - 1])
  }

  /** The unwrapped step count of a transport position. */
  function RawStep(pos: TransportPosition, bpm: real): (r: real)
    ensures pos.Seconds? ==> r * 15.0 == pos.t * bpm
    ensures pos.NoColon? ==> r == 0.0
  {
    match pos
    case Musical(parts) => FieldsSum(parts, |parts|)
    case Seconds(t) => t * (bpm / 60.0) * 4.0
    case NoColon => 0.0
  }

  /** The playhead step, wrapped into the loop with JavaScript's `%`: within
      (-16, 16), and within [0, 16) whenever the position is not negative. */
  function PlayheadStep(pos: TransportPosition, bpm: real): (r: real)
    ensures -(TotalSteps as real) < r < TotalSteps as real
    ensures RawStep(pos, bpm) >= 0.0 ==> 0.0 <= r
    ensures 0.0 <= RawStep(pos, bpm) < TotalSteps as real ==> r == RawStep(pos, bpm)
  {
    JsRem(RawStep(pos, bpm), TotalSteps as real)
  }

  lemma {:induction false} MusicalStep(bars: int, quarters: int, sixteenths: real)
    ensures RawStep(Musical([bars as real, quarters as real, sixteenths]), 0.0)
            == 16.0 * bars as real + 4.0 * quarters as real + sixteenths
  {
    var parts := [bars as real, quarters as real, sixteenths];
    TruncOfInt(bars);
    TruncOfInt(quarters);
    assert FieldsSum(parts, 1) == 16.0 * bars as real;
    assert FieldsSum(parts, 2) == 16.0 * bars as real + 4.0 * quarters as real;
  }

  /** The position fields written when the ruler is scrubbed to `step`. */
  function ScrubFields(step: real): (parts: seq<real>)
    requires step >= 0.0
    ensures |parts| == 3
    ensures 0.0 <= parts[0] && parts[0] == Trunc(parts[0]) as real
    ensures 0.0 <= parts[1] < 4.0 && parts[1] == Trunc(parts[1]) as real
    ensures 0.0 <= parts[2] < 4.0
  {
    var totalQuarterNotes := step / 4.0;
    var bars := (totalQuarterNotes / 4.0).Floor;
    var quarters := JsRem(totalQuarterNotes, 4.0).Floor;
    var sixteens := JsRem(step, 4.0);
    TruncOfInt(bars);
    TruncOfInt(quarters);
    [bars as real, quarters as real, sixteens]
  }

  /** Scrubbing writes a position that reads back as exactly the scrubbed step. */
  lemma ScrubRoundTrip(step: real, bpm: real)
    requires step >= 0.0
    ensures RawStep(Musical(ScrubFields(step)), bpm) == step
  {
    var parts := ScrubFields(step);
    var b := (step / 4.0 / 4.0).Floor;
    var q4 := (step / 4.0).Floor;
    var quarters := JsRem(step / 4.0, 4.0).Floor;
    assert JsRem(step / 4.0, 4.0) == step / 4.0 - 4.0 * b as real;
    FloorShift(step / 4.0, -4 * b);
    assert quarters == q4 - 4 * b;
    assert parts[2] == step - 4.0 * q4 as real;
    MusicalStep(b, quarters, parts[2]);
  }

  lemma FloorShift(x: real, n: int)
    ensures (x + n as real).Floor == x.Floor + n
  {
  }

  /** Scrubbing within the loop and then reading the playhead gives the same
      step back. */
  lemma ScrubThenPlayhead(step: real, bpm: real)
    requires 0.0 <= step < TotalSteps as real
    ensures PlayheadStep(Musical(ScrubFields(step)), bpm) == step
  {
    ScrubRoundTrip(step, bpm);
  }
}
