/**
 * The canonical 44-byte PCM header of the RIFF WAVE form (a `RIFF` chunk
 * of form type `WAVE`, a 16-byte `fmt ` chunk with format tag 1,
 * WAVE_FORMAT_PCM, and a `data` chunk), written with BinaryWriter calls,
 * followed by the PCM bytes of the first lock region; and a reader for
 * that header.
 */
module Wave {
  import opened Wrappers
  import opened Bytes
  import opened CSharpInts

  const HeaderSize: nat := 44
  const PcmFormatTag: int := 1
  const FmtChunkSize: int := 16

  const RiffTag: seq<byte> := Ascii("RIFF")
  const WaveFmtTag: seq<byte> := Ascii("WAVEfmt ")
  const DataTag: seq<byte> := Ascii("data")

  /** `sampleRate * numChannels * bitsPerSample / 8` in unchecked `int` arithmetic. */
  function ByteRate(sampleRate: int, numChannels: int, bitsPerSample: int): (r: int)
    requires IsInt32(sampleRate) && IsInt32(numChannels) && IsInt32(bitsPerSample)
    ensures IsInt32(r)
  {
    Div(WrapInt32(WrapInt32(sampleRate * numChannels) * bitsPerSample), 8)
  }

  /** `(short)(numChannels * bitsPerSample / 8)`. */
  function BlockAlign(numChannels: int, bitsPerSample: int): (r: int)
    requires IsInt32(numChannels) && IsInt32(bitsPerSample)
    ensures IsInt16(r)
  {
    ToInt16(Div(WrapInt32(numChannels * bitsPerSample), 8))
  }

  predicate ValidFormat(numChannels: int, sampleRate: int, bitsPerSample: int) {
    IsInt32(numChannels) && IsInt32(sampleRate) && IsInt32(bitsPerSample)
  }

  /** The header, field by field in the order the writer emits them. */
  function WaveHeader(numChannels: int, sampleRate: int, bitsPerSample: int, len1: int): (h: seq<byte>)
    requires ValidFormat(numChannels, sampleRate, bitsPerSample) && IsUInt32(len1)
    ensures |h| == HeaderSize
  {
    RiffTag
    + UInt32Bytes(WrapUInt32(len1 + 36))
    + WaveFmtTag
    + Int32Bytes(FmtChunkSize)
    + Int16Bytes(PcmFormatTag)
    + Int16Bytes(ToInt16(numChannels))
    + Int32Bytes(sampleRate)
    + Int32Bytes(ByteRate(sampleRate, numChannels, bitsPerSample))
    + Int16Bytes(BlockAlign(numChannels, bitsPerSample))
    + Int16Bytes(ToInt16(bitsPerSample))
    + DataTag
    + UInt32Bytes(len1)
  }

  /** The whole file: the header, then the region's bytes verbatim, with no pad byte. */
  function WaveFile(numChannels: int, sampleRate: int, bitsPerSample: int, pcm: seq<byte>): (f: seq<byte>)
    requires ValidFormat(numChannels, sampleRate, bitsPerSample) && IsUInt32(|pcm|)
    ensures |f| == HeaderSize + |pcm| && f[HeaderSize..] == pcm
  {
    WaveHeader(numChannels, sampleRate, bitsPerSample, |pcm|) + pcm
  }

  /** The header fields as an unsigned reader sees them, and the data chunk's bytes. */
  datatype WaveInfo = WaveInfo(
    riffSize: int,
    channels: int,
    sampleRate: int,
    byteRate: int,
    blockAlign: int,
    bitsPerSample: int,
    data: seq<byte>)

  /** A reader for canonical PCM WAVE files: fixed tags, fixed sizes, then the data chunk. */
  function ParseWave(b: seq<byte>): (r: Option<WaveInfo>)
    ensures r.Some? ==> HeaderSize + |r.value.data| <= |b| && r.value.data == b[HeaderSize..HeaderSize + |r.value.data|]
    ensures r.Some? ==> 0 <= r.value.channels < TwoTo16 && 0 <= r.value.bitsPerSample < TwoTo16
    ensures r.Some? ==> 0 <= r.value.sampleRate < TwoTo32 && |r.value.data| < TwoTo32
  {
    if |b| < HeaderSize || b[0..4] != RiffTag || b[8..16] != WaveFmtTag || U32(b, 16) != FmtChunkSize
       || U16(b, 20) != PcmFormatTag || b[36..40] != DataTag then None
    else
      var len := U32(b, 40);
      if |b| < HeaderSize + len then None
      else Some(WaveInfo(U32(b, 4), U16(b, 22), U32(b, 24), U32(b, 28), U16(b, 32), U16(b, 34), b[HeaderSize..HeaderSize + len]))
  }

  /** If p + x begins h, then x sits in h right after p. */
  lemma Field(h: seq<byte>, p: seq<byte>, x: seq<byte>)
    requires |p| + |x| <= |h| && h[..|p| + |x|] == p + x
    ensures h[|p|..|p| + |x|] == x
  {
    assert h[|p|..|p| + |x|] == h[..|p| + |x|][|p|..];
  }

  /** Where each field of the header lies. */
  lemma HeaderLayout(numChannels: int, sampleRate: int, bitsPerSample: int, len1: int)
    requires ValidFormat(numChannels, sampleRate, bitsPerSample) && IsUInt32(len1)
    ensures var h := WaveHeader(numChannels, sampleRate, bitsPerSample, len1);
      && h[0..4] == RiffTag
      && h[4..8] == UInt32Bytes(WrapUInt32(len1 + 36))
      && h[8..16] == WaveFmtTag
      && h[16..20] == Int32Bytes(FmtChunkSize)
      && h[20..22] == Int16Bytes(PcmFormatTag)
      && h[22..24] == Int16Bytes(ToInt16(numChannels))
      && h[24..28] == Int32Bytes(sampleRate)
      && h[28..32] == Int32Bytes(ByteRate(sampleRate, numChannels, bitsPerSample))
      && h[32..34] == Int16Bytes(BlockAlign(numChannels, bitsPerSample))
      && h[34..36] == Int16Bytes(ToInt16(bitsPerSample))
      && h[36..40] == DataTag
      && h[40..44] == UInt32Bytes(len1)
  {
    var h := WaveHeader(numChannels, sampleRate, bitsPerSample, len1);
    var p1 := RiffTag;
    var p2 := p1 + UInt32Bytes(WrapUInt32(len1 + 36));
    var p3 := p2 + WaveFmtTag;
    var p4 := p3 + Int32Bytes(FmtChunkSize);
    var p5 := p4 + Int16Bytes(PcmFormatTag);
    var p6 := p5 + Int16Bytes(ToInt16(numChannels));
    var p7 := p6 + Int32Bytes(sampleRate);
    var p8 := p7 + Int32Bytes(ByteRate(sampleRate, numChannels, bitsPerSample));
    var p9 := p8 + Int16Bytes(BlockAlign(numChannels, bitsPerSample));
    var p10 := p9 + Int16Bytes(ToInt16(bitsPerSample));
    var p11 := p10 + DataTag;
    Field(h, [], RiffTag);
    Field(h, p1, UInt32Bytes(WrapUInt32(len1 + 36)));
    Field(h, p2, WaveFmtTag);
    Field(h, p3, Int32Bytes(FmtChunkSize));
    Field(h, p4, Int16Bytes(PcmFormatTag));
    Field(h, p5, Int16Bytes(ToInt16(numChannels)));
    Field(h, p6, Int32Bytes(sampleRate));
    Field(h, p7, Int32Bytes(ByteRate(sampleRate, numChannels, bitsPerSample)));
    Field(h, p8, Int16Bytes(BlockAlign(numChannels, bitsPerSample)));
    Field(h, p9, Int16Bytes(ToInt16(bitsPerSample)));
    Field(h, p10, DataTag);
    Field(h, p11, UInt32Bytes(len1));
  }

  /** A slice inside a prefix is that prefix's slice. */
  lemma Within(f: seq<byte>, h: seq<byte>, o: nat, w: nat)
    requires |h| <= |f| && f[..|h|] == h && o + w <= |h|
    ensures f[o..o + w] == h[o..o + w]
  {
    forall i | o <= i < o + w
      ensures f[i] == h[i]
    {
      assert f[i] == f[..|h|][i];
    }
  }

  /** The values an unsigned reader finds in the header's numeric fields. */
  lemma HeaderValues(numChannels: int, sampleRate: int, bitsPerSample: int, len1: int)
    requires ValidFormat(numChannels, sampleRate, bitsPerSample) && IsUInt32(len1)
    ensures var h := WaveHeader(numChannels, sampleRate, bitsPerSample, len1);
      && U32(h, 4) == (len1 + 36) % TwoTo32
      && U32(h, 16) == FmtChunkSize
      && U16(h, 20) == PcmFormatTag
      && U16(h, 22) == numChannels % TwoTo16
      && U32(h, 24) == sampleRate % TwoTo32
      && U32(h, 28) == ByteRate(sampleRate, numChannels, bitsPerSample) % TwoTo32
      && U16(h, 32) == BlockAlign(numChannels, bitsPerSample) % TwoTo16
      && U16(h, 34) == bitsPerSample % TwoTo16
      && U32(h, 40) == len1
  {
    var h := WaveHeader(numChannels, sampleRate, bitsPerSample, len1);
    HeaderLayout(numChannels, sampleRate, bitsPerSample, len1);
    DecodeLE32(WrapUInt32(len1 + 36));
    U32Local(h, 4, UInt32Bytes(WrapUInt32(len1 + 36)), 0);
    DecodeLE32(FmtChunkSize);
    U32Local(h, 16, Int32Bytes(FmtChunkSize), 0);
    DecodeLE16(PcmFormatTag);
    U16Local(h, 20, Int16Bytes(PcmFormatTag), 0);
    Int16BytesOfCast(numChannels);
    DecodeLE16(numChannels % TwoTo16);
    U16Local(h, 22, Int16Bytes(ToInt16(numChannels)), 0);
    Int32BytesRead(sampleRate);
    U32Local(h, 24, Int32Bytes(sampleRate), 0);
    Int32BytesRead(ByteRate(sampleRate, numChannels, bitsPerSample));
    U32Local(h, 28, Int32Bytes(ByteRate(sampleRate, numChannels, bitsPerSample)), 0);
    DecodeLE16(BlockAlign(numChannels, bitsPerSample) % TwoTo16);
    U16Local(h, 32, Int16Bytes(BlockAlign(numChannels, bitsPerSample)), 0);
    Int16BytesOfCast(bitsPerSample);
    DecodeLE16(bitsPerSample % TwoTo16);
    U16Local(h, 34, Int16Bytes(ToInt16(bitsPerSample)), 0);
    DecodeLE32(len1);
    U32Local(h, 40, UInt32Bytes(len1), 0);
  }

  /** What the reader makes of any well-tagged header followed by the data it announces. */
  lemma ParseAfterHeader(h: seq<byte>, pcm: seq<byte>)
    requires |h| == HeaderSize && h[0..4] == RiffTag && h[8..16] == WaveFmtTag && h[36..40] == DataTag
    requires U32(h, 16) == FmtChunkSize && U16(h, 20) == PcmFormatTag && U32(h, 40) == |pcm|
    ensures ParseWave(h + pcm) == Some(WaveInfo(U32(h, 4), U16(h, 22), U32(h, 24), U32(h, 28), U16(h, 32), U16(h, 34), pcm))
  {
    var f := h + pcm;
    assert f[..HeaderSize] == h;
    Within(f, h, 0, 4);
    Within(f, h, 8, 8);
    Within(f, h, 36, 4);
    Within(f, h, 4, 4);
    U32Local(f, 4, h, 4);
    Within(f, h, 16, 4);
    U32Local(f, 16, h, 16);
    Within(f, h, 20, 2);
    U16Local(f, 20, h, 20);
    Within(f, h, 22, 2);
    U16Local(f, 22, h, 22);
    Within(f, h, 24, 4);
    U32Local(f, 24, h, 24);
    Within(f, h, 28, 4);
    U32Local(f, 28, h, 28);
    Within(f, h, 32, 2);
    U16Local(f, 32, h, 32);
    Within(f, h, 34, 2);
    U16Local(f, 34, h, 34);
    Within(f, h, 40, 4);
    U32Local(f, 40, h, 40);
    assert f[HeaderSize..HeaderSize + |pcm|] == pcm;
  }

  /**
   * Reading a written file back yields every header field modulo the width
   * the reader gives it, and the PCM bytes exactly.
   */
  lemma ParseWaveFile(numChannels: int, sampleRate: int, bitsPerSample: int, pcm: seq<byte>)
    requires ValidFormat(numChannels, sampleRate, bitsPerSample) && IsUInt32(|pcm|)
    ensures ParseWave(WaveFile(numChannels, sampleRate, bitsPerSample, pcm)) == Some(WaveInfo(
      (|pcm| + 36) % TwoTo32,
      numChannels % TwoTo16,
      sampleRate % TwoTo32,
      ByteRate(sampleRate, numChannels, bitsPerSample) % TwoTo32,
      BlockAlign(numChannels, bitsPerSample) % TwoTo16,
      bitsPerSample % TwoTo16,
      pcm))
  {
    var h := WaveHeader(numChannels, sampleRate, bitsPerSample, |pcm|);
    HeaderLayout(numChannels, sampleRate, bitsPerSample, |pcm|);
    HeaderValues(numChannels, sampleRate, bitsPerSample, |pcm|);
    ParseAfterHeader(h, pcm);
  }

  /**
   * When nothing overflows, the derived fields read back as the formulas:
   * byte rate = sampleRate * numChannels * bitsPerSample / 8 and block
   * align = numChannels * bitsPerSample / 8, and the format fields read back
   * unchanged.
   */
  lemma DerivedFields(numChannels: int, sampleRate: int, bitsPerSample: int, pcm: seq<byte>)
    requires 0 <= numChannels < TwoTo16 && 0 <= bitsPerSample < TwoTo16 && 0 <= sampleRate
    requires sampleRate * numChannels * bitsPerSample < 0x8000_0000
    requires numChannels * bitsPerSample / 8 < TwoTo16
    requires IsInt32(sampleRate) && IsUInt32(|pcm|)
    ensures ParseWave(WaveFile(numChannels, sampleRate, bitsPerSample, pcm)) == Some(WaveInfo(
      (|pcm| + 36) % TwoTo32,
      numChannels,
      sampleRate,
      sampleRate * numChannels * bitsPerSample / 8,
      numChannels * bitsPerSample / 8,
      bitsPerSample,
      pcm))
  {
    ParseWaveFile(numChannels, sampleRate, bitsPerSample, pcm);
    ByteRateExact(sampleRate, numChannels, bitsPerSample);
    BlockAlignExact(numChannels, bitsPerSample);
    MulNonNegative(sampleRate, numChannels);
    MulNonNegative(sampleRate * numChannels, bitsPerSample);
    ModSmall(ByteRate(sampleRate, numChannels, bitsPerSample), TwoTo32);
    ModSmall(numChannels, TwoTo16);
    ModSmall(bitsPerSample, TwoTo16);
    ModSmall(sampleRate, TwoTo32);
  }

  lemma ByteRateExact(sampleRate: int, numChannels: int, bitsPerSample: int)
    requires 0 <= numChannels && 0 <= bitsPerSample && 0 <= sampleRate
    requires IsInt32(sampleRate) && IsInt32(numChannels) && IsInt32(bitsPerSample)
    requires sampleRate * numChannels * bitsPerSample < 0x8000_0000
    ensures ByteRate(sampleRate, numChannels, bitsPerSample) == sampleRate * numChannels * bitsPerSample / 8
  {
    var sn := sampleRate * numChannels;
    var snb := sn * bitsPerSample;
    MulNonNegative(sampleRate, numChannels);
    MulNonNegative(sn, bitsPerSample);
    if bitsPerSample == 0 {
      MulZero(WrapInt32(sn));
      MulZero(sn);
    } else {
      MulGrows(sn, bitsPerSample);
      assert WrapInt32(sn) == sn;
      assert WrapInt32(snb) == snb;
    }
  }

  /** Modulo facts stay out of the callers' nonlinear contexts, one instance at a time. */
  lemma ModSmall(x: int, m: int)
    requires 0 <= x < m
    ensures x % m == x
  {
  }

  lemma MulNonNegative(a: int, b: int)
    requires 0 <= a && 0 <= b
    ensures 0 <= a * b
  {
  }

  /** As `ModSmall`, for a product with zero. */
  lemma MulZero(a: int)
    ensures a * 0 == 0
  {
  }

  lemma MulGrows(a: int, b: int)
    requires 0 <= a && 1 <= b
    ensures a <= a * b
  {
  }

  lemma BlockAlignExact(numChannels: int, bitsPerSample: int)
    requires 0 <= numChannels < TwoTo16 && 0 <= bitsPerSample < TwoTo16
    requires numChannels * bitsPerSample / 8 < TwoTo16
    ensures BlockAlign(numChannels, bitsPerSample) % TwoTo16 == numChannels * bitsPerSample / 8
  {
    var nb := numChannels * bitsPerSample;
    assert 0 <= nb < 8 * TwoTo16;
    assert WrapInt32(nb) == nb;
    var v := nb / 8;
    var r := ToInt16(v);
    assert (v - r) % TwoTo16 == 0;
    assert r % TwoTo16 == v % TwoTo16;
  }

  /** Equal slices mean equal bytes, index by index. */
  lemma SameBytes(b1: seq<byte>, b2: seq<byte>, o: nat, w: nat)
    requires o + w <= |b1| && o + w <= |b2| && b1[o..o + w] == b2[o..o + w]
    ensures forall i :: o <= i < o + w ==> b1[i] == b2[i]
  {
    forall i | o <= i < o + w
      ensures b1[i] == b2[i]
    {
      assert b1[i] == b1[o..o + w][i - o];
      assert b2[i] == b2[o..o + w][i - o];
    }
  }

  /** The reader loses nothing: two files it reads alike, with nothing after the data, are equal. */
  lemma ParseDetermines(b1: seq<byte>, b2: seq<byte>)
    requires ParseWave(b1).Some? && ParseWave(b1) == ParseWave(b2)
    requires |b1| == HeaderSize + |ParseWave(b1).value.data| == |b2|
    ensures b1 == b2
  {
    EncodeU32(b1, 4);  EncodeU32(b2, 4);  SameBytes(b1, b2, 4, 4);
    EncodeU32(b1, 16); EncodeU32(b2, 16); SameBytes(b1, b2, 16, 4);
    EncodeU16(b1, 20); EncodeU16(b2, 20); SameBytes(b1, b2, 20, 2);
    EncodeU16(b1, 22); EncodeU16(b2, 22); SameBytes(b1, b2, 22, 2);
    EncodeU32(b1, 24); EncodeU32(b2, 24); SameBytes(b1, b2, 24, 4);
    EncodeU32(b1, 28); EncodeU32(b2, 28); SameBytes(b1, b2, 28, 4);
    EncodeU16(b1, 32); EncodeU16(b2, 32); SameBytes(b1, b2, 32, 2);
    EncodeU16(b1, 34); EncodeU16(b2, 34); SameBytes(b1, b2, 34, 2);
    EncodeU32(b1, 40); EncodeU32(b2, 40); SameBytes(b1, b2, 40, 4);
    SameBytes(b1, b2, 0, 4);
    SameBytes(b1, b2, 8, 8);
    SameBytes(b1, b2, 36, 4);
    SameBytes(b1, b2, HeaderSize, |b1| - HeaderSize);
  }

  /**
   * The converse of ParseWaveFile: every byte string the reader accepts,
   * with nothing after the data, whose size and derived fields agree with
   * the formulas and whose sample rate fits an `int`, is exactly what the
   * writer emits for its format and data.
   */
  lemma WaveFileOfParse(b: seq<byte>, w: WaveInfo)
    requires ParseWave(b) == Some(w) && |b| == HeaderSize + |w.data|
    requires w.sampleRate < 0x8000_0000
    requires w.riffSize == (|w.data| + 36) % TwoTo32
    requires w.byteRate == ByteRate(w.sampleRate, w.channels, w.bitsPerSample) % TwoTo32
    requires w.blockAlign == BlockAlign(w.channels, w.bitsPerSample) % TwoTo16
    ensures WaveFile(w.channels, w.sampleRate, w.bitsPerSample, w.data) == b
  {
    var f := WaveFile(w.channels, w.sampleRate, w.bitsPerSample, w.data);
    ParseWaveFile(w.channels, w.sampleRate, w.bitsPerSample, w.data);
    ModSmall(w.channels, TwoTo16);
    ModSmall(w.bitsPerSample, TwoTo16);
    ModSmall(w.sampleRate, TwoTo32);
    assert ParseWave(f) == Some(w);
    ParseDetermines(f, b);
  }

  // ---- The writer ---------------------------------------------------------

  /** The output file, as the bytes written to it so far. */
  class FileStream {
    var contents: seq<byte>

    constructor ()
      ensures contents == []
    {
      contents := [];
    }
  }

  /** A BinaryWriter over a file stream: each Write appends the value's bytes. */
  class BinaryWriter {
    const output: FileStream

    constructor (output: FileStream)
      ensures this.output == output
    {
      this.output := output;
    }

    /** `Write(byte[])`. */
    method Write(bytes: seq<byte>)
      modifies output
      ensures output.contents == old(output.contents) + bytes
    {
      output.contents := output.contents + bytes;
    }

    /** `Write(byte)`. */
    method WriteByte(b: byte)
      modifies output
      ensures output.contents == old(output.contents) + [b]
    {
      output.contents := output.contents + [b];
    }

    /** `Write(int)`. */
    method WriteInt32(x: int)
      requires IsInt32(x)
      modifies output
      ensures output.contents == old(output.contents) + Int32Bytes(x)
    {
      output.contents := output.contents + Int32Bytes(x);
    }

    /** `Write(uint)`. */
    method WriteUInt32(x: int)
      requires IsUInt32(x)
      modifies output
      ensures output.contents == old(output.contents) + UInt32Bytes(x)
    {
      output.contents := output.contents + UInt32Bytes(x);
    }

    /** `Write(short)`. */
    method WriteInt16(x: int)
      requires IsInt16(x)
      modifies output
      ensures output.contents == old(output.contents) + Int16Bytes(x)
    {
      output.contents := output.contents + Int16Bytes(x);
    }
  }

  /** Regrouping the file after one more write, given to `WriteHeader` one instance at a time. */
  lemma AppendStep(start: seq<byte>, p: seq<byte>, x: seq<byte>)
    ensures start + p + x == start + (p + x)
  {
  }

  /** The twelve header writes; the file gains exactly WaveHeader. */
  method WriteHeader(writer: BinaryWriter, numChannels: int, sampleRate: int, bitsPerSample: int, len1: int)
    requires ValidFormat(numChannels, sampleRate, bitsPerSample) && IsUInt32(len1)
    modifies writer.output
    ensures writer.output.contents == old(writer.output.contents) + WaveHeader(numChannels, sampleRate, bitsPerSample, len1)
  {
    ghost var start := writer.output.contents;
    ghost var p := RiffTag;
    writer.Write(RiffTag);
    writer.WriteUInt32(WrapUInt32(len1 + 36));
    AppendStep(start, p, UInt32Bytes(WrapUInt32(len1 + 36)));
    p := p + UInt32Bytes(WrapUInt32(len1 + 36));
    writer.Write(WaveFmtTag);
    AppendStep(start, p, WaveFmtTag);
    p := p + WaveFmtTag;
    writer.WriteInt32(FmtChunkSize);
    AppendStep(start, p, Int32Bytes(FmtChunkSize));
    p := p + Int32Bytes(FmtChunkSize);
    writer.WriteInt16(PcmFormatTag);
    AppendStep(start, p, Int16Bytes(PcmFormatTag));
    p := p + Int16Bytes(PcmFormatTag);
    writer.WriteInt16(ToInt16(numChannels));
    AppendStep(start, p, Int16Bytes(ToInt16(numChannels)));
    p := p + Int16Bytes(ToInt16(numChannels));
    writer.WriteInt32(sampleRate);
    AppendStep(start, p, Int32Bytes(sampleRate));
    p := p + Int32Bytes(sampleRate);
    writer.WriteInt32(ByteRate(sampleRate, numChannels, bitsPerSample));
    AppendStep(start, p, Int32Bytes(ByteRate(sampleRate, numChannels, bitsPerSample)));
    p := p + Int32Bytes(ByteRate(sampleRate, numChannels, bitsPerSample));
    writer.WriteInt16(BlockAlign(numChannels, bitsPerSample));
    AppendStep(start, p, Int16Bytes(BlockAlign(numChannels, bitsPerSample)));
    p := p + Int16Bytes(BlockAlign(numChannels, bitsPerSample));
    writer.WriteInt16(ToInt16(bitsPerSample));
    AppendStep(start, p, Int16Bytes(ToInt16(bitsPerSample)));
    p := p + Int16Bytes(ToInt16(bitsPerSample));
    writer.Write(DataTag);
    AppendStep(start, p, DataTag);
    p := p + DataTag;
    writer.WriteUInt32(len1);
    AppendStep(start, p, UInt32Bytes(len1));
    p := p + UInt32Bytes(len1);
    assert p == WaveHeader(numChannels, sampleRate, bitsPerSample, len1);
  }

  /**
   * The body of the `using` block: the header, then the region's bytes one
   * at a time. The file gains exactly the WAVE form of the region.
   */
  method WriteWave(writer: BinaryWriter, numChannels: int, sampleRate: int, bitsPerSample: int, ptr1: seq<byte>)
    requires ValidFormat(numChannels, sampleRate, bitsPerSample) && IsUInt32(|ptr1|)
    modifies writer.output
    ensures writer.output.contents == old(writer.output.contents) + WaveFile(numChannels, sampleRate, bitsPerSample, ptr1)
  {
    var len1 := |ptr1|;
    WriteHeader(writer, numChannels, sampleRate, bitsPerSample, len1);
    ghost var header := WaveHeader(numChannels, sampleRate, bitsPerSample, len1);
    for i := 0 to len1
      invariant writer.output.contents == old(writer.output.contents) + header + ptr1[..i]
    {
      writer.WriteByte(ptr1[i]);
      assert ptr1[..i + 1] == ptr1[..i] + [ptr1[i]];
    }
    assert ptr1[..len1] == ptr1;
  }
}
