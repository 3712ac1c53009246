/** The WAV encoder of an exported render (bufferToWav in
    src/app/utils/audioExport.ts): a 44-byte RIFF header followed by
    interleaved 16-bit little-endian PCM samples, written into a zero-filled
    byte buffer of the final size through a write cursor. */
module WavWriter {
  import opened TimelinePosition

  newtype byte = x: int | 0 <= x < 256

  function Zeros(k: nat): (z: seq<byte>)
    ensures |z| == k
    ensures forall j :: 0 <= j < k ==> z[j] == 0
  {
    seq(k, _ => 0)
  }

  // ------------------------------------------------ little-endian fields

  /** DataView.setUint16(…, true): the value taken modulo 2^16, low byte
      first. Also what setInt16 writes, since ToInt16 and ToUint16 agree
      modulo 2^16. */
  function LE16(v: int): (bs: seq<byte>)
    ensures |bs| == 2
  {
    var u := v % 0x1_0000;
    [(u % 0x100) as byte, (u / 0x100) as byte]
  }

  /** The two bytes read back as the value modulo 2^16. */
  lemma LE16Reads(v: int)
    ensures U16(LE16(v)) == v % 0x1_0000
  {
  }

  /** DataView.setUint32(…, true): the value taken modulo 2^32, low byte first. */
  function LE32(v: int): (bs: seq<byte>)
    ensures |bs| == 4
  {
    var u := v % 0x1_0000_0000;
    LE16(u % 0x1_0000) + LE16(u / 0x1_0000)
  }

  /** The four bytes read back as the value modulo 2^32. */
  lemma LE32Reads(v: int)
    ensures U32(LE32(v)) == v % 0x1_0000_0000
  {
    var u := v % 0x1_0000_0000;
    LE16Reads(u % 0x1_0000);
    LE16Reads(u / 0x1_0000);
    SplitWord(u);
  }

  lemma SplitWord(u: int)
    requires 0 <= u < 0x1_0000_0000
    ensures u / 0x1_0000 < 0x1_0000
    ensures u == u % 0x1_0000 + 0x1_0000 * (u / 0x1_0000)
  {
  }

  /** Reading a little-endian unsigned 16-bit field. */
  function U16(bs: seq<byte>): (u: int)
    requires |bs| == 2
    ensures 0 <= u < 0x1_0000
  {
    bs[0] as int + 0x100 * bs[1] as int
  }

  /** Reading a little-endian unsigned 32-bit field. */
  function U32(bs: seq<byte>): (u: int)
    requires |bs| == 4
    ensures 0 <= u < 0x1_0000_0000
  {
    bs[0] as int + 0x100 * bs[1] as int + 0x1_0000 * bs[2] as int + 0x100_0000 * bs[3] as int
  }

  /** Reading a little-endian two's-complement 16-bit field. */
  function I16(bs: seq<byte>): (s: int)
    requires |bs| == 2
    ensures -0x8000 <= s < 0x8000
  {
    var u := U16(bs);
    if u >= 0x8000 then u - 0x1_0000 else u
  }

  lemma Small16(v: int)
    requires 0 <= v < 0x1_0000
    ensures U16(LE16(v)) == v
  {
    LE16Reads(v);
  }

  lemma Small32(v: int)
    requires 0 <= v < 0x1_0000_0000
    ensures U32(LE32(v)) == v
  {
    LE32Reads(v);
  }

  /** A sample in range is read back as itself. */
  lemma Int16RoundTrip(s: int)
    requires -0x8000 <= s < 0x8000
    ensures I16(LE16(s)) == s
  {
    LE16Reads(s);
  }

  // ------------------------------------------------------------ header

  function HeaderSize(): nat { 44 }

  /** The RIFF chunk descriptor: tag, size of the rest of the file, format. */
  function RiffChunk(length: int): (h: seq<byte>)
    ensures |h| == 12
  {
    LE32(0x46464952) + LE32(length - 8) + LE32(0x45564157)
  }

  /** The format sub-chunk: 16-bit PCM with `c` channels at `rate`. */
  function FmtChunk(c: nat, rate: nat): (h: seq<byte>)
    ensures |h| == 24
  {
    LE32(0x20746d66) + LE32(16) + LE16(1) + LE16(c) + LE32(rate) + LE32(rate * 2 * c) + LE16(c * 2) + LE16(16)
  }

  /** The head of the data sub-chunk: tag and size of the samples. */
  function DataChunkHead(length: int): (h: seq<byte>)
    ensures |h| == 8
  {
    LE32(0x61746164) + LE32(length - 44)
  }

  /** The 44 header bytes bufferToWav writes for a file of `length` bytes. */
  function Header(c: nat, rate: nat, length: int): (h: seq<byte>)
    ensures |h| == HeaderSize()
  {
    RiffChunk(length) + FmtChunk(c, rate) + DataChunkHead(length)
  }

  /** The fields of a canonical WAV header, as a reader sees them. */
  datatype WavFields = WavFields(
    riffTag: seq<byte>, riffSize: int, waveTag: seq<byte>,
    fmtTag: seq<byte>, fmtSize: int, audioFormat: int, channels: int, sampleRate: int,
    byteRate: int, blockAlign: int, bitsPerSample: int,
    dataTag: seq<byte>, dataSize: int)

  /** Reads the header fields at their offsets in the canonical layout. */
  function ReadHeader(h: seq<byte>): WavFields
    requires |h| >= HeaderSize()
  {
    WavFields(h[0..4], U32(h[4..8]), h[8..12],
              h[12..16], U32(h[16..20]), U16(h[20..22]), U16(h[22..24]), U32(h[24..28]),
              U32(h[28..32]), U16(h[32..34]), U16(h[34..36]),
              h[36..40], U32(h[40..44]))
  }

  /** The ASCII codes of a four-letter chunk tag. */
  function Tag(s: string): seq<byte>
    requires |s| == 4
    requires s[0] as int < 0x100 && s[1] as int < 0x100 && s[2] as int < 0x100 && s[3] as int < 0x100
  {
    [s[0] as int as byte, s[1] as int as byte, s[2] as int as byte, s[3] as int as byte]
  }

  /** The four tag constants, written little-endian, spell their chunk names. */
  lemma ChunkTags()
    ensures LE32(0x46464952) == Tag("RIFF") && LE32(0x45564157) == Tag("WAVE")
    ensures LE32(0x20746d66) == Tag("fmt ") && LE32(0x61746164) == Tag("data")
  {
    RiffTag();
    WaveTag();
    FmtTag();
    DataTag();
  }

  lemma RiffTag()
    ensures LE32(0x46464952) == Tag("RIFF")
  {
    assert LE16(0x4952) == [0x52, 0x49] && LE16(0x4646) == [0x46, 0x46];
    assert Tag("RIFF") == [0x52, 0x49, 0x46, 0x46];
  }

  lemma WaveTag()
    ensures LE32(0x45564157) == Tag("WAVE")
  {
    assert LE16(0x4157) == [0x57, 0x41] && LE16(0x4556) == [0x56, 0x45];
    assert Tag("WAVE") == [0x57, 0x41, 0x56, 0x45];
  }

  lemma FmtTag()
    ensures LE32(0x20746d66) == Tag("fmt ")
  {
    assert LE16(0x6d66) == [0x66, 0x6d] && LE16(0x2074) == [0x74, 0x20];
    assert Tag("fmt ") == [0x66, 0x6d, 0x74, 0x20];
  }

  lemma DataTag()
    ensures LE32(0x61746164) == Tag("data")
  {
    assert LE16(0x6164) == [0x64, 0x61] && LE16(0x6174) == [0x74, 0x61];
    assert Tag("data") == [0x64, 0x61, 0x74, 0x61];
  }

  lemma RiffFields(length: int)
    requires 8 <= length < 0x1_0000_0008
    ensures var h := RiffChunk(length);
            h[0..4] == Tag("RIFF") && U32(h[4..8]) == length - 8 && h[8..12] == Tag("WAVE")
  {
    RiffTag();
    WaveTag();
    LE32Reads(length - 8);
    WordSlices3(LE32(0x46464952), LE32(length - 8), LE32(0x45564157));
  }

  lemma WordSlices3<T>(x: seq<T>, y: seq<T>, z: seq<T>)
    requires |x| == |y| == |z| == 4
    ensures var h := x + y + z;
            h[0..4] == x && h[4..8] == y && h[8..12] == z
  {
  }

  lemma FmtFields(c: nat, rate: nat)
    requires c < 0x8000 && rate * 2 * c < 0x1_0000_0000 && rate < 0x1_0000_0000
    ensures var h := FmtChunk(c, rate);
            h[0..4] == Tag("fmt ") && U32(h[4..8]) == 16 && U16(h[8..10]) == 1 && U16(h[10..12]) == c
            && U32(h[12..16]) == rate && U32(h[16..20]) == rate * 2 * c && U16(h[20..22]) == c * 2
            && U16(h[22..24]) == 16
  {
    var t, s, pcm, ch := LE32(0x20746d66), LE32(16), LE16(1), LE16(c);
    var r, br, ba, bits := LE32(rate), LE32(rate * 2 * c), LE16(c * 2), LE16(16);
    FmtSlices(t, s, pcm, ch, r, br, ba, bits);
    FmtTag();
    Small32(rate);
    Small32(rate * 2 * c);
    Small16(c);
    Small16(c * 2);
  }

  lemma FmtSlices(t: seq<byte>, s: seq<byte>, pcm: seq<byte>, ch: seq<byte>,
                  r: seq<byte>, br: seq<byte>, ba: seq<byte>, bits: seq<byte>)
    requires |t| == |s| == |r| == |br| == 4 && |pcm| == |ch| == |ba| == |bits| == 2
    ensures var h := t + s + pcm + ch + r + br + ba + bits;
            h[0..4] == t && h[4..8] == s && h[8..10] == pcm && h[10..12] == ch
            && h[12..16] == r && h[16..20] == br && h[20..22] == ba && h[22..24] == bits
  {
  }

  lemma DataHeadFields(length: int)
    requires 44 <= length < 0x1_0000_002C
    ensures var h := DataChunkHead(length);
            h[0..4] == Tag("data") && U32(h[4..8]) == length - 44
  {
    DataTag();
    LE32Reads(length - 44);
    WordSlices2(LE32(0x61746164), LE32(length - 44));
  }

  lemma WordSlices2<T>(x: seq<T>, y: seq<T>)
    requires |x| == |y| == 4
    ensures var h := x + y;
            h[0..4] == x && h[4..8] == y
  {
  }

  /** The header is a canonical 16-bit PCM WAV header: the chunk tags spell
      RIFF, WAVE, "fmt " and data; the RIFF size is the file length less 8,
      the data size the length less the header; the format block describes
      `c` channels of 16-bit samples with the matching byte rate and block
      alignment. */
  lemma HeaderFields(c: nat, rate: nat, length: int)
    requires c < 0x8000 && rate * 2 * c < 0x1_0000_0000 && rate < 0x1_0000_0000
    requires HeaderSize() <= length < 0x1_0000_0000
    ensures ReadHeader(Header(c, rate, length))
            == WavFields(Tag("RIFF"), length - 8, Tag("WAVE"),
                         Tag("fmt "), 16, 1, c, rate, rate * 2 * c, c * 2, 16,
                         Tag("data"), length - HeaderSize())
  {
    RiffFields(length);
    FmtFields(c, rate);
    DataHeadFields(length);
    HeaderSlices(RiffChunk(length), FmtChunk(c, rate), DataChunkHead(length));
  }

  /** Where the fields of the three chunks sit in the 44-byte header. */
  lemma HeaderSlices<T>(r: seq<T>, f: seq<T>, d: seq<T>)
    requires |r| == 12 && |f| == 24 && |d| == 8
    ensures var h := r + f + d;
            h[0..4] == r[0..4] && h[4..8] == r[4..8] && h[8..12] == r[8..12]
            && h[12..16] == f[0..4] && h[16..20] == f[4..8] && h[20..22] == f[8..10] && h[22..24] == f[10..12]
            && h[24..28] == f[12..16] && h[28..32] == f[16..20] && h[32..34] == f[20..22] && h[34..36] == f[22..24]
            && h[36..40] == d[0..4] && h[40..44] == d[4..8]
  {
    var h := r + f + d;
    assert h[0..12] == r && h[12..36] == f && h[36..44] == d;
  }

  // ----------------------------------------------------------- samples

  function Clamp(s: real): real {
    if s > 1.0 then 1.0 else if s < -1.0 then -1.0 else s
  }

  /** A sample scaled to 16 bits: clamped to [-1, 1], multiplied by 32768
      below -0.5 and by 32767 otherwise, then truncated toward zero by `| 0`.
      The result is a 16-bit signed value that keeps the sign of the sample
      and maps full scale to the extremes. */
  function Sample16(s: real): (r: int)
    ensures -0x8000 <= r < 0x8000
    ensures s >= 0.0 ==> r >= 0
    ensures s <= 0.0 ==> r <= 0
    ensures s >= 1.0 ==> r == 0x7FFF
    ensures s <= -1.0 ==> r == -0x8000
  {
    var x := Clamp(s);
    Trunc(if 0.5 + x < 0.0 then x * 32768.0 else x * 32767.0)
  }

  /** The two bytes setInt16 stores for one sample. */
  function SampleBytes(x: real): (bs: seq<byte>)
    ensures |bs| == 2
  {
    LE16(Sample16(x))
  }

  /** The stored bytes of a sample read back as its scaled value. */
  lemma SampleRead(x: real)
    ensures I16(SampleBytes(x)) == Sample16(x)
  {
    Int16RoundTrip(Sample16(x));
  }

  /** Every channel holds `n` frames. */
  predicate ChannelsHold(chs: seq<seq<real>>, n: nat) {
    forall i :: 0 <= i < |chs| ==> |chs[i]| == n
  }

  /** The bytes of channels 0..k-1 at frame f, interleaved. */
  function ChannelBytes(chs: seq<seq<real>>, n: nat, f: nat, k: nat): (bs: seq<byte>)
    requires ChannelsHold(chs, n) && f < n && k <= |chs|
    ensures |bs| == 2 * k
  {
    if k == 0 then [] else ChannelBytes(chs, n, f, k - 1) + SampleBytes(chs[k - 1][f])
  }

  /** One interleaved frame: a 16-bit sample of every channel in order. */
  function FrameBytes(chs: seq<seq<real>>, n: nat, f: nat): (bs: seq<byte>)
    requires ChannelsHold(chs, n) && f < n
    ensures |bs| == 2 * |chs|
  {
    ChannelBytes(chs, n, f, |chs|)
  }

  /** Channel i of a frame sits 2·i bytes into it. */
  lemma {:induction false} FrameSample(chs: seq<seq<real>>, n: nat, f: nat, k: nat, i: nat)
    requires ChannelsHold(chs, n) && f < n && i < k <= |chs|
    ensures ChannelBytes(chs, n, f, k)[2 * i..2 * i + 2] == SampleBytes(chs[i][f])
  {
    var bs := ChannelBytes(chs, n, f, k);
    if i == k - 1 {
      assert bs[2 * i..2 * i + 2] == SampleBytes(chs[i][f]);
    } else {
      FrameSample(chs, n, f, k - 1, i);
      assert bs[2 * i..2 * i + 2] == ChannelBytes(chs, n, f, k - 1)[2 * i..2 * i + 2];
    }
  }

  /** The number of bytes k frames of c channels take: 2·c·k, counted frame
      by frame. */
  function Span(c: nat, k: nat): nat {
    if k == 0 then 0 else Span(c, k - 1) + 2 * c
  }

  lemma {:induction false} SpanIsProduct(c: nat, k: nat)
    ensures Span(c, k) == k * c * 2
  {
    if k > 0 {
      SpanIsProduct(c, k - 1);
      assert (k - 1) * c * 2 + 2 * c == k * c * 2;
    }
  }

  lemma {:induction false} SpanAdd(c: nat, k: nat, m: nat)
    ensures Span(c, k) + Span(c, m) == Span(c, k + m)
    decreases m
  {
    if m > 0 {
      SpanAdd(c, k, m - 1);
    }
  }

  /** The interleaved frames from..to-1 (none when to <= from). */
  function DataFrom(chs: seq<seq<real>>, n: nat, from: nat, to: nat): (bs: seq<byte>)
    requires ChannelsHold(chs, n) && (from < to ==> to <= n)
    ensures from <= to ==> |bs| == Span(|chs|, to - from)
    ensures to <= from ==> bs == []
  {
    if to <= from then [] else DataFrom(chs, n, from, to - 1) + FrameBytes(chs, n, to - 1)
  }

  /** The file size bufferToWav allocates: two bytes per sample plus the header. */
  function WavLength(c: nat, n: nat): nat {
    Span(c, n) + HeaderSize()
  }

  /** The file bufferToWav writes, as written: the header, then the frames
      from index 44 on (the cursor that wrote the header is reused as the
      frame index), then zeros for the frames never written. */
  function WavAsWritten(chs: seq<seq<real>>, n: nat, rate: nat): (wav: seq<byte>)
    requires ChannelsHold(chs, n)
    ensures |wav| == WavLength(|chs|, n)
  {
    var c := |chs|;
    var data := DataFrom(chs, n, HeaderSize(), n);
    var skipped := if n < HeaderSize() then n else HeaderSize();
    SplitAtHeader(c, n);
    Header(c, rate, WavLength(c, n)) + data + Zeros(Span(c, skipped))
  }

  lemma SplitAtHeader(c: nat, n: nat)
    ensures n >= HeaderSize() ==> Span(c, n - HeaderSize()) + Span(c, HeaderSize()) == Span(c, n)
  {
    if n >= HeaderSize() {
      SpanAdd(c, n - HeaderSize(), HeaderSize());
    }
  }

  /** The file as evidently intended: the header, then every frame from the
      first. */
  function WavIntended(chs: seq<seq<real>>, n: nat, rate: nat): (wav: seq<byte>)
    requires ChannelsHold(chs, n)
    ensures |wav| == WavLength(|chs|, n)
  {
    Header(|chs|, rate, WavLength(|chs|, n)) + DataFrom(chs, n, 0, n)
  }

  /** Both files have the same header. */
  lemma SameHeader(chs: seq<seq<real>>, n: nat, rate: nat)
    requires ChannelsHold(chs, n)
    ensures WavAsWritten(chs, n, rate)[..HeaderSize()] == Header(|chs|, rate, WavLength(|chs|, n))
    ensures WavIntended(chs, n, rate)[..HeaderSize()] == Header(|chs|, rate, WavLength(|chs|, n))
  {
  }

  /** In the frames from..to-1, frame f starts Span(c, f - from) bytes in. */
  lemma {:induction false} FrameAt(chs: seq<seq<real>>, n: nat, from: nat, to: nat, f: nat)
    requires ChannelsHold(chs, n) && from <= f < to <= n
    ensures var c := |chs|;
            var o := Span(c, f - from);
            o + 2 * c <= |DataFrom(chs, n, from, to)|
            && DataFrom(chs, n, from, to)[o..o + 2 * c] == FrameBytes(chs, n, f)
  {
    var c := |chs|;
    var d := DataFrom(chs, n, from, to);
    var o := Span(c, f - from);
    if f < to - 1 {
      FrameAt(chs, n, from, to - 1, f);
      assert d[o..o + 2 * c] == DataFrom(chs, n, from, to - 1)[o..o + 2 * c];
    }
  }

  /** Sample i of frame f sits 2·i bytes into that frame. */
  lemma SampleInData(chs: seq<seq<real>>, n: nat, from: nat, to: nat, f: nat, i: nat)
    requires ChannelsHold(chs, n) && from <= f < to <= n && i < |chs|
    ensures var o := Span(|chs|, f - from) + 2 * i;
            o + 2 <= |DataFrom(chs, n, from, to)|
            && DataFrom(chs, n, from, to)[o..o + 2] == SampleBytes(chs[i][f])
  {
    var c := |chs|;
    var base := Span(c, f - from);
    FrameAt(chs, n, from, to, f);
    FrameSample(chs, n, f, c, i);
    SliceOfSlice(DataFrom(chs, n, from, to), base, 2 * c, 2 * i, 2 * i + 2);
  }

  lemma SliceOfSlice<T>(d: seq<T>, base: nat, len: nat, lo: nat, hi: nat)
    requires base + len <= |d| && lo <= hi <= len
    ensures d[base + lo..base + hi] == d[base..base + len][lo..hi]
  {
    var x, y := d[base + lo..base + hi], d[base..base + len][lo..hi];
    assert forall k :: 0 <= k < |x| ==> x[k] == y[k];
  }

  /** Reading sample i of frame f of the intended file, at byte
      44 + 2·c·f + 2·i, gives back the scaled sample of channel i at frame f. */
  lemma IntendedSample(chs: seq<seq<real>>, n: nat, rate: nat, f: nat, i: nat)
    requires ChannelsHold(chs, n) && f < n && i < |chs|
    ensures var off := HeaderSize() + f * |chs| * 2 + 2 * i;
            off + 2 <= |WavIntended(chs, n, rate)|
            && I16(WavIntended(chs, n, rate)[off..off + 2]) == Sample16(chs[i][f])
  {
    SpanIsProduct(|chs|, f);
    IntendedSampleAt(chs, n, rate, f, i);
  }

  /** The same place counted frame by frame: HeaderSize() + Span(c, f) + 2·i. */
  lemma IntendedSampleAt(chs: seq<seq<real>>, n: nat, rate: nat, f: nat, i: nat)
    requires ChannelsHold(chs, n) && f < n && i < |chs|
    ensures var off := HeaderSize() + Span(|chs|, f) + 2 * i;
            off + 2 <= |WavIntended(chs, n, rate)|
            && I16(WavIntended(chs, n, rate)[off..off + 2]) == Sample16(chs[i][f])
  {
    var o := Span(|chs|, f) + 2 * i;
    SampleInData(chs, n, 0, n, f, i);
    SampleRead(chs[i][f]);
    TailSlice(Header(|chs|, rate, WavLength(|chs|, n)), DataFrom(chs, n, 0, n), o, o + 2);
  }

  lemma TailSlice<T>(x: seq<T>, y: seq<T>, lo: nat, hi: nat)
    requires lo <= hi <= |y|
    ensures (x + y)[|x| + lo..|x| + hi] == y[lo..hi]
  {
  }

  /** As written, the sample at the place of frame f - 44 (Span(c, f - 44)
      bytes into the data chunk, by SpanIsProduct 2·c·(f - 44)) is the scaled
      sample of frame f: the data chunk starts 44 frames into the render ... */
  lemma AsWrittenSample(chs: seq<seq<real>>, n: nat, rate: nat, f: nat, i: nat)
    requires ChannelsHold(chs, n) && HeaderSize() <= f < n && i < |chs|
    ensures var off := HeaderSize() + Span(|chs|, f - HeaderSize()) + 2 * i;
            off + 2 <= |WavAsWritten(chs, n, rate)|
            && I16(WavAsWritten(chs, n, rate)[off..off + 2]) == Sample16(chs[i][f])
  {
    var c := |chs|;
    var h := HeaderSize();
    var d := DataFrom(chs, n, h, n);
    var o := Span(c, f - h) + 2 * i;
    SampleInData(chs, n, h, n, f, i);
    SampleRead(chs[i][f]);
    var skipped := if n < h then n else h;
    MiddleSlice(Header(c, rate, WavLength(c, n)), d, Zeros(Span(c, skipped)), o, o + 2);
  }

  lemma MiddleSlice<T>(x: seq<T>, y: seq<T>, z: seq<T>, lo: nat, hi: nat)
    requires lo <= hi <= |y|
    ensures (x + y + z)[|x| + lo..|x| + hi] == y[lo..hi]
  {
  }

  /** ... and the last min(n, 44) frames' worth of bytes are never written
      and stay zero. */
  lemma AsWrittenSilentTail(chs: seq<seq<real>>, n: nat, rate: nat, j: nat)
    requires ChannelsHold(chs, n)
    requires WavLength(|chs|, n) - Span(|chs|, if n < HeaderSize() then n else HeaderSize()) <= j < WavLength(|chs|, n)
    ensures WavAsWritten(chs, n, rate)[j] == 0
  {
    SplitAtHeader(|chs|, n);
  }

  /** A one-channel, one-frame render at full scale: the intended file holds
      the sample 32767 after the header, the file as written holds silence
      there. */
  lemma FirstFramesLost()
    ensures WavAsWritten([[1.0]], 1, 44100)[44..46] == [0, 0]
    ensures WavIntended([[1.0]], 1, 44100)[44..46] == [0xFF, 0x7F]
  {
    var chs := [[1.0]];
    assert Sample16(1.0) == 0x7FFF;
    assert FrameBytes(chs, 1, 0) == LE16(0x7FFF) == [0xFF, 0x7F];
    assert DataFrom(chs, 1, 0, 1) == FrameBytes(chs, 1, 0);
    assert WavIntended(chs, 1, 44100)[44..46] == DataFrom(chs, 1, 0, 1);
    assert WavAsWritten(chs, 1, 44100)[44..46] == Zeros(2);
  }

  // ------------------------------------------------------------ writer

  /** The contents of a partly written buffer: the bytes written so far,
      then the zeros it was allocated with. */
  predicate WrittenUpTo(a: array<byte>, w: seq<byte>)
    reads a
  {
    |w| <= a.Length && a[..] == w + Zeros(a.Length - |w|)
  }

  /** One DataView store of `bs` at the end of what has been written. */
  method Store(a: array<byte>, pos: int, bs: seq<byte>, ghost w: seq<byte>)
    requires pos == |w| && pos + |bs| <= a.Length
    requires WrittenUpTo(a, w)
    modifies a
    ensures WrittenUpTo(a, w + bs)
  {
    var k := 0;
    while k < |bs|
      invariant 0 <= k <= |bs|
      invariant WrittenUpTo(a, w + bs[..k])
    {
      a[pos + k] := bs[k];
      assert (w + bs[..k + 1]) == (w + bs[..k]) + [bs[k]];
      k := k + 1;
    }
    assert bs[..|bs|] == bs;
  }

  /** The interleaving loop: frames `first`, `first`+1, … up to `n`, every
      channel of a frame in turn, written from byte 44 on. */
  method WriteSamples(a: array<byte>, chs: seq<seq<real>>, n: nat, first: nat, ghost w: seq<byte>)
    requires ChannelsHold(chs, n) && a.Length == WavLength(|chs|, n)
    requires |w| == HeaderSize() && WrittenUpTo(a, w)
    modifies a
    ensures WrittenUpTo(a, w + DataFrom(chs, n, first, n))
  {
    var c := |chs|;
    var offset := 0;
    var pos := first;
    if n <= pos {
      assert w + DataFrom(chs, n, first, n) == w;
      return;
    }
    while pos < n
      invariant first <= pos <= n
      invariant offset == Span(c, pos - first)
      invariant WrittenUpTo(a, w + DataFrom(chs, n, first, pos))
    {
      offset := WriteFrame(a, chs, n, first, pos, offset, w);
      pos := pos + 1;
    }
  }

  /** One pass of the frame loop: frame f after the frames first..f-1. */
  method WriteFrame(a: array<byte>, chs: seq<seq<real>>, n: nat, first: nat, f: nat, offset: int, ghost w: seq<byte>)
    returns (next: int)
    requires ChannelsHold(chs, n) && first <= f < n && a.Length == WavLength(|chs|, n)
    requires |w| == HeaderSize() && offset == Span(|chs|, f - first)
    requires WrittenUpTo(a, w + DataFrom(chs, n, first, f))
    modifies a
    ensures next == Span(|chs|, f + 1 - first)
    ensures WrittenUpTo(a, w + DataFrom(chs, n, first, f + 1))
  {
    SpanMono(|chs|, f + 1 - first, n);
    next := WriteChannels(a, chs, n, f, offset, w + DataFrom(chs, n, first, f));
    assert DataFrom(chs, n, first, f + 1) == DataFrom(chs, n, first, f) + FrameBytes(chs, n, f);
  }

  /** The channel loop of one frame: the samples of frame f, channel by
      channel, at the data offset. */
  method WriteChannels(a: array<byte>, chs: seq<seq<real>>, n: nat, f: nat, offset: int, ghost w: seq<byte>)
    returns (next: int)
    requires ChannelsHold(chs, n) && f < n
    requires HeaderSize() + offset == |w| && |w| + 2 * |chs| <= a.Length && WrittenUpTo(a, w)
    modifies a
    ensures next == offset + 2 * |chs|
    ensures WrittenUpTo(a, w + FrameBytes(chs, n, f))
  {
    var c := |chs|;
    var i := 0;
    next := offset;
    ghost var written := w;
    while i < c
      invariant 0 <= i <= c
      invariant written == w + ChannelBytes(chs, n, f, i)
      invariant HeaderSize() + next == |written|
      invariant WrittenUpTo(a, written)
    {
      var sample := Sample16(chs[i][f]);
      Store(a, HeaderSize() + next, LE16(sample), written);
      written := written + LE16(sample);
      next := next + 2;
      i := i + 1;
    }
  }

  lemma {:induction false} SpanMono(c: nat, k: nat, m: nat)
    requires k <= m
    ensures Span(c, k) <= Span(c, m)
    decreases m
  {
    if k < m {
      SpanMono(c, k, m - 1);
    }
  }

  /** Writes the header through the cursor, one DataView store per field,
      and returns the cursor, which ends at 44. */
  method WriteHeader(a: array<byte>, c: nat, rate: nat, length: int) returns (pos: int)
    requires a.Length >= HeaderSize() && WrittenUpTo(a, [])
    modifies a
    ensures pos == HeaderSize()
    ensures WrittenUpTo(a, Header(c, rate, length))
  {
    pos := 0;
    ghost var w: seq<byte> := [];
    Store(a, pos, LE32(0x46464952), w); w := w + LE32(0x46464952); pos := pos + 4;
    Store(a, pos, LE32(length - 8), w); w := w + LE32(length - 8); pos := pos + 4;
    Store(a, pos, LE32(0x45564157), w); w := w + LE32(0x45564157); pos := pos + 4;
    assert w == RiffChunk(length);
    pos := WriteFmt(a, pos, c, rate, w);
    w := w + FmtChunk(c, rate);
    ghost var w1 := w;
    Store(a, pos, LE32(0x61746164), w); w := w + LE32(0x61746164); pos := pos + 4;
    Store(a, pos, LE32(length - pos - 4), w); w := w + LE32(length - pos - 4); pos := pos + 4;
    assert w == w1 + DataChunkHead(length);
  }

  /** The stores of the format sub-chunk. */
  method WriteFmt(a: array<byte>, start: int, c: nat, rate: nat, ghost w0: seq<byte>) returns (pos: int)
    requires start == |w0| && start + 24 <= a.Length && WrittenUpTo(a, w0)
    modifies a
    ensures pos == start + 24
    ensures WrittenUpTo(a, w0 + FmtChunk(c, rate))
  {
    pos := start;
    ghost var w := w0;
    Store(a, pos, LE32(0x20746d66), w); w := w + LE32(0x20746d66); pos := pos + 4;
    Store(a, pos, LE32(16), w); w := w + LE32(16); pos := pos + 4;
    Store(a, pos, LE16(1), w); w := w + LE16(1); pos := pos + 2;
    Store(a, pos, LE16(c), w); w := w + LE16(c); pos := pos + 2;
    Store(a, pos, LE32(rate), w); w := w + LE32(rate); pos := pos + 4;
    Store(a, pos, LE32(rate * 2 * c), w); w := w + LE32(rate * 2 * c); pos := pos + 4;
    Store(a, pos, LE16(c * 2), w); w := w + LE16(c * 2); pos := pos + 2;
    Store(a, pos, LE16(16), w); w := w + LE16(16); pos := pos + 2;
    assert w == w0 + FmtChunk(c, rate);
  }

  /** bufferToWav as written: the header through the write cursor, then the
      interleaving loop, which goes on using the cursor (44 after the
      header) as its frame index. */
  method BufferToWav(chs: seq<seq<real>>, n: nat, rate: nat) returns (wav: seq<byte>)
    requires ChannelsHold(chs, n)
    ensures wav == WavAsWritten(chs, n, rate)
  {
    var c := |chs|;
    var length := n * c * 2 + 44;
    SpanIsProduct(c, n);
    var a := new byte[length](_ => 0);
    assert WrittenUpTo(a, []);
    var pos := WriteHeader(a, c, rate, length);
    WriteSamples(a, chs, n, pos, Header(c, rate, length));
    wav := a[..];
  }

  /** bufferToWav with a frame index of its own, starting at frame 0. */
  method BufferToWavFixed(chs: seq<seq<real>>, n: nat, rate: nat) returns (wav: seq<byte>)
    requires ChannelsHold(chs, n)
    ensures wav == WavIntended(chs, n, rate)
  {
    var c := |chs|;
    var length := n * c * 2 + 44;
    SpanIsProduct(c, n);
    var a := new byte[length](_ => 0);
    assert WrittenUpTo(a, []);
    var pos := WriteHeader(a, c, rate, length);
    WriteSamples(a, chs, n, 0, Header(c, rate, length));
    wav := a[..];
  }
}
