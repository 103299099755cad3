/** `writeWav` of src/tts_stub.cpp, byte for byte, and a reader of RIFF/WAVE files that knows
    nothing of it. */
module WavFile {
  import opened MachineInts

  // ---- Little-endian integers -------------------------------------------------------------

  function Le16(v: uint16): (b: seq<byte>)
    ensures |b| == 2
  {
    [v % 0x100, v / 0x100]
  }

  function Le32(v: uint32): (b: seq<byte>)
    ensures |b| == 4
  {
    [v % 0x100, v / 0x100 % 0x100, v / 0x1_0000 % 0x100, v / 0x100_0000]
  }

  function Read16(b: seq<byte>, at: nat): uint16
    requires at + 2 <= |b|
  {
    b[at] as int + 0x100 * b[at + 1] as int
  }

  function Read32(b: seq<byte>, at: nat): uint32
    requires at + 4 <= |b|
  {
    b[at] as int + 0x100 * b[at + 1] as int + 0x1_0000 * b[at + 2] as int + 0x100_0000 * b[at + 3] as int
  }

  lemma LeRoundTrip(v: uint32, w: uint16)
    ensures Read32(Le32(v), 0) == v && Read16(Le16(w), 0) == w
  {
    assert v == v % 0x100 + 0x100 * (v / 0x100);
    assert v / 0x100 == v / 0x100 % 0x100 + 0x100 * (v / 0x1_0000);
    assert v / 0x1_0000 == v / 0x1_0000 % 0x100 + 0x100 * (v / 0x100_0000);
  }

  /** Two's complement. */
  function Unsigned16(x: int16): uint16 {
    if x >= 0 then x else x + 0x1_0000
  }

  function Signed16(v: uint16): int16 {
    if v < 0x8000 then v else v - 0x1_0000
  }

  // ---- Samples as they lie in memory ---------------------------------------------------------

  function Pcm(samples: seq<int16>): (b: seq<byte>)
    ensures |b| == 2 * |samples|
  {
    if samples == [] then [] else Pcm(samples[..|samples| - 1]) + Le16(Unsigned16(samples[|samples| - 1]))
  }

  function SamplesOf(b: seq<byte>): (samples: seq<int16>)
    requires |b| % 2 == 0
    ensures |samples| == |b| / 2
  {
    if b == [] then [] else SamplesOf(b[..|b| - 2]) + [Signed16(Read16(b, |b| - 2))]
  }

  lemma {:induction false} PcmRoundTrip(samples: seq<int16>)
    ensures SamplesOf(Pcm(samples)) == samples
  {
    if samples != [] {
      var n := |samples| - 1;
      var b := Pcm(samples);
      PcmRoundTrip(samples[..n]);
      LeRoundTrip(0, Unsigned16(samples[n]));
      assert b[..|b| - 2] == Pcm(samples[..n]) && b[|b| - 2..] == Le16(Unsigned16(samples[n]));
      assert samples == samples[..n] + [samples[n]];
    }
  }

  // ---- The writer --------------------------------------------------------------------------

  const RIFF: seq<byte> := [0x52, 0x49, 0x46, 0x46]
  const WAVE: seq<byte> := [0x57, 0x41, 0x56, 0x45]
  const FMT: seq<byte> := [0x66, 0x6D, 0x74, 0x20]
  const DATA: seq<byte> := [0x64, 0x61, 0x74, 0x61]

  /** The two sizes as the writer computes them, in 32 bits. */
  function DataBytes(n: nat): uint32 {
    Wrap32(Wrap32(n) as int * 2)
  }

  function RiffBytes(n: nat): uint32 {
    Wrap32(36 + DataBytes(n) as int)
  }

  function RiffHeader(n: nat): (b: seq<byte>)
    ensures |b| == 12
  {
    RIFF + Le32(RiffBytes(n)) + WAVE
  }

  /** 8 kHz, mono, 16 bits. */
  function FormatChunk(): (b: seq<byte>)
    ensures |b| == 24
  {
    FMT + Le32(16) + Le16(1) + Le16(1) + Le32(8000) + Le32(16000) + Le16(2) + Le16(16)
  }

  function DataHeader(n: nat): (b: seq<byte>)
    ensures |b| == 8
  {
    DATA + Le32(DataBytes(n))
  }

  /** What the file is made of. */
  function WavBytes(samples: seq<int16>): seq<byte> {
    RiffHeader(|samples|) + FormatChunk() + DataHeader(|samples|) + Pcm(samples)[..DataBytes(|samples|)]
  }

  class OutFile {
    var bytes: seq<byte>

    constructor ()
      ensures bytes == []
    {
      bytes := [];
    }

    method Put(data: seq<byte>)
      modifies this
      ensures bytes == old(bytes) + data
    {
      bytes := bytes + data;
    }

    method Write32(v: uint32)
      modifies this
      ensures bytes == old(bytes) + Le32(v)
    {
      Put([v % 0x100, v / 0x100 % 0x100, v / 0x1_0000 % 0x100, v / 0x100_0000]);
    }

    method Write16(v: uint16)
      modifies this
      ensures bytes == old(bytes) + Le16(v)
    {
      Put([v % 0x100, v / 0x100]);
    }

    method WriteWav(samples: seq<int16>)
      requires bytes == []
      modifies this
      ensures bytes == WavBytes(samples)
    {
      hide Le32, Le16, Pcm;
      var dataBytes := Wrap32(Wrap32(|samples|) as int * 2);
      var sampleRate := 8000;
      Put(RIFF);
      Write32(Wrap32(36 + dataBytes as int));
      Put(WAVE);
      Put(FMT);
      Write32(16);
      Write16(1);
      Write16(1);
      Write32(sampleRate);
      Write32(sampleRate * 2);
      Write16(2);
      Write16(16);
      Put(DATA);
      Write32(dataBytes);
      Put(Pcm(samples)[..dataBytes]);
    }
  }

  // ---- The reader ---------------------------------------------------------------------------

  datatype Format = Format(tag: uint16, channels: uint16, rate: uint32, byteRate: uint32, blockAlign: uint16, bits: uint16)

  /** What a reader knows of the format so far, and what it gets in the end. */
  datatype Seen = Nothing | Seen(format: Format)

  datatype Wav = NoWav | Wav(format: Format, samples: seq<int16>)

  function ReadFormat(b: seq<byte>, at: nat): Format
    requires at + 16 <= |b|
  {
    Format(Read16(b, at), Read16(b, at + 2), Read32(b, at + 4), Read32(b, at + 8), Read16(b, at + 12), Read16(b, at + 14))
  }

  /** Chunk after chunk, padded to even length: a format, and after it the data; others are skipped. */
  function ReadChunks(b: seq<byte>, seen: Seen): Wav
    decreases |b|
  {
    if |b| < 8 then NoWav
    else
      var id, size := b[..4], Read32(b, 4);
      var next := 8 + size as int + size as int % 2;
      if next > |b| then NoWav
      else if id == FMT then
        if size < 16 then NoWav else ReadChunks(b[next..], Seen(ReadFormat(b, 8)))
      else if id == DATA then
        if seen.Nothing? || seen.format.tag != 1 || seen.format.bits != 16 || size % 2 != 0 then NoWav
        else Wav(seen.format, SamplesOf(b[8..8 + size]))
      else ReadChunks(b[next..], seen)
  }

  /** A RIFF file of form WAVE whose size field counts exactly the bytes after it. */
  function ReadWav(b: seq<byte>): Wav {
    if |b| < 12 || b[..4] != RIFF || Read32(b, 4) != |b| - 8 || b[8..12] != WAVE then NoWav
    else ReadChunks(b[12..], Nothing)
  }

  const TELEPHONE: Format := Format(1, 1, 8000, 16000, 2, 16)

  // ---- Round trip -----------------------------------------------------------------------------

  lemma HeadersRead(n: nat)
    ensures var b := RiffHeader(n); b[..4] == RIFF && Read32(b, 4) == RiffBytes(n) && b[8..12] == WAVE
    ensures var b := DataHeader(n); b[..4] == DATA && Read32(b, 4) == DataBytes(n)
  {
    LeRoundTrip(RiffBytes(n), 0);
    LeRoundTrip(DataBytes(n), 0);
  }

  lemma FormatReads()
    ensures var b := FormatChunk(); b[..4] == FMT && Read32(b, 4) == 16 && ReadFormat(b, 8) == TELEPHONE
  {
    var b := FormatChunk();
    assert b == FMT + [16, 0, 0, 0] + [1, 0] + [1, 0] + [64, 31, 0, 0] + [128, 62, 0, 0] + [2, 0] + [16, 0];
  }

  lemma ReadsInside(b: seq<byte>, from: nat, to: nat, at: nat)
    requires from <= at <= to <= |b|
    ensures at + 2 <= to ==> Read16(b, at) == Read16(b[from..to], at - from)
    ensures at + 4 <= to ==> Read32(b, at) == Read32(b[from..to], at - from)
    ensures at + 16 <= to ==> ReadFormat(b, at) == ReadFormat(b[from..to], at - from)
  {
  }

  /** Where everything lies in the file. */
  lemma FileLayout(samples: seq<int16>)
    ensures var b, size := WavBytes(samples), DataBytes(|samples|);
            && |b| == 44 + size as int
            && b[..4] == RIFF && Read32(b, 4) == RiffBytes(|samples|) && b[8..12] == WAVE
            && Chunks(samples) == b[12..]
            && Read32(b, 40) == size
  {
    hide Read32, Read16, ReadFormat, RiffHeader, FormatChunk, DataHeader, Pcm, RiffBytes;
    var b := WavBytes(samples);
    HeadersRead(|samples|);
    assert b[0..12] == RiffHeader(|samples|) && b[36..44] == DataHeader(|samples|);
    ReadsInside(b, 0, 12, 4);
    ReadsInside(b, 36, 44, 40);
    assert b[..4] == b[0..12][..4] && b[8..12] == b[0..12][8..12];
  }

  /** All after the RIFF header. */
  function Chunks(samples: seq<int16>): seq<byte> {
    FormatChunk() + DataChunk(samples)
  }

  function DataChunk(samples: seq<int16>): seq<byte> {
    DataHeader(|samples|) + Pcm(samples)[..DataBytes(|samples|)]
  }

  lemma ChunksRead(samples: seq<int16>)
    ensures var size := DataBytes(|samples|);
            size % 2 == 0 && size <= |Pcm(samples)|
    ensures ReadChunks(Chunks(samples), Nothing) == Wav(TELEPHONE, SamplesOf(Pcm(samples)[..DataBytes(|samples|)]))
  {
    hide Read32, Read16, ReadFormat, ReadChunks, FormatChunk, DataHeader, Pcm, SamplesOf, DataBytes;
    var b, d, size := Chunks(samples), DataChunk(samples), DataBytes(|samples|);
    EvenSize(|samples|);
    FormatReads();
    HeadersRead(|samples|);
    assert b[0..24] == FormatChunk() && b[24..] == d && b[..4] == b[0..24][..4];
    ReadsInside(b, 0, 24, 4);
    ReadsInside(b, 0, 24, 8);
    SkipsFormat(b);
    assert d[0..8] == DataHeader(|samples|) && d[8..] == Pcm(samples)[..size] && d[..4] == d[0..8][..4];
    ReadsInside(d, 0, 8, 4);
    TakesData(d, size, TELEPHONE);
  }

  lemma SkipsFormat(b: seq<byte>)
    requires |b| >= 24 && b[..4] == FMT && Read32(b, 4) == 16
    ensures ReadChunks(b, Nothing) == ReadChunks(b[24..], Seen(ReadFormat(b, 8)))
  {
    hide Read32, Read16, ReadFormat, SamplesOf;
  }

  lemma TakesData(b: seq<byte>, size: uint32, format: Format)
    requires |b| == 8 + size as int && size % 2 == 0 && b[..4] == DATA && Read32(b, 4) == size
    requires format.tag == 1 && format.bits == 16
    ensures ReadChunks(b, Seen(format)) == Wav(format, SamplesOf(b[8..]))
  {
    hide Read32, Read16, ReadFormat, SamplesOf;
    assert DATA[0] != FMT[0];
    assert b[8..8 + size] == b[8..];
  }

  lemma EvenSize(n: nat)
    ensures DataBytes(n) % 2 == 0 && DataBytes(n) <= 2 * n && (2 * n < TWO32 ==> DataBytes(n) == 2 * n)
    ensures RiffBytes(n) == 36 + DataBytes(n) <==> 36 + DataBytes(n) as int < TWO32
  {
    var m := Wrap32(n) as int;
    assert Wrap32(m * 2) == if m * 2 < TWO32 then m * 2 else m * 2 - TWO32;
  }

  /** What a reader makes of the file: a file whose RIFF size has wrapped is no RIFF file; any other is read in full. */
  lemma ReadsBack(samples: seq<int16>)
    ensures DataBytes(|samples|) <= |Pcm(samples)| && DataBytes(|samples|) % 2 == 0
    ensures var size := DataBytes(|samples|);
            ReadWav(WavBytes(samples)) ==
              if 36 + size as int < TWO32 then Wav(TELEPHONE, SamplesOf(Pcm(samples)[..size])) else NoWav
  {
    hide Read32, Read16, ReadFormat, WavBytes, Chunks, Pcm, SamplesOf, ReadChunks, DataBytes, RiffBytes;
    EvenSize(|samples|);
    FileLayout(samples);
    ChunksRead(samples);
  }

  /** The file reads back as the very samples exactly as long as its size fits 32 bits; beyond that it is
      no RIFF file or holds fewer samples. */
  lemma WavRoundTrip(samples: seq<int16>)
    ensures ReadWav(WavBytes(samples)) == Wav(TELEPHONE, samples) <==> 36 + 2 * |samples| < TWO32
  {
    hide WavBytes, ReadWav, Pcm, SamplesOf;
    ReadsBack(samples);
    PcmRoundTrip(samples);
    if 36 + 2 * |samples| < TWO32 {
      assert Pcm(samples)[..DataBytes(|samples|)] == Pcm(samples);
    }
  }

  lemma FormatBytes()
    ensures FormatChunk() == [0x66, 0x6D, 0x74, 0x20, 16, 0, 0, 0, 1, 0, 1, 0,
                              0x40, 0x1F, 0, 0, 0x80, 0x3E, 0, 0, 2, 0, 16, 0]
  {
    assert Le32(16) == [16, 0, 0, 0] && Le32(8000) == [0x40, 0x1F, 0, 0] && Le32(16000) == [0x80, 0x3E, 0, 0];
    assert Le16(1) == [1, 0] && Le16(2) == [2, 0] && Le16(16) == [16, 0];
  }

  /** The headers byte by byte: "RIFF", a size, "WAVE", "fmt " with PCM, mono, 8000 Hz, 16000 bytes a second, 2 bytes a
      block, 16 bits, and "data", a size; the sizes with their low bytes first. */
  lemma HeaderBytes(samples: seq<int16>)
    requires 36 + 2 * |samples| < TWO32
    ensures var b := WavBytes(samples);
            && |b| == 44 + 2 * |samples|
            && b[..4] == [0x52, 0x49, 0x46, 0x46] && b[8..12] == [0x57, 0x41, 0x56, 0x45]
            && b[4] as int + 0x100 * b[5] as int + 0x1_0000 * b[6] as int + 0x100_0000 * b[7] as int == 36 + 2 * |samples|
            && b[12..36] == [0x66, 0x6D, 0x74, 0x20, 16, 0, 0, 0, 1, 0, 1, 0,
                             0x40, 0x1F, 0, 0, 0x80, 0x3E, 0, 0, 2, 0, 16, 0]
            && b[36..40] == [0x64, 0x61, 0x74, 0x61]
            && b[40] as int + 0x100 * b[41] as int + 0x1_0000 * b[42] as int + 0x100_0000 * b[43] as int == 2 * |samples|
  {
    hide Pcm, WavBytes;
    SizesAreTrue(samples);
    TagBytes(samples);
    FormatBytes();
  }

  lemma TagBytes(samples: seq<int16>)
    ensures var b := WavBytes(samples);
            |b| >= 44 && b[..4] == RIFF && b[8..12] == WAVE && b[12..36] == FormatChunk() && b[36..40] == DATA
  {
    hide Pcm, Le32, FormatChunk;
  }

  /** Every sample lies at its place, low byte first, in two's complement. */
  lemma SampleBytes(samples: seq<int16>, i: nat)
    requires 36 + 2 * |samples| < TWO32 && i < |samples|
    ensures var b := WavBytes(samples);
            |b| == 44 + 2 * |samples| && b[44 + 2 * i] == samples[i] % 0x100 && b[45 + 2 * i] == samples[i] / 0x100 % 0x100
  {
    hide Pcm, RiffHeader, FormatChunk, DataHeader;
    EvenSize(|samples|);
    PcmAt(samples, i);
  }

  lemma {:induction false} PcmAt(samples: seq<int16>, i: nat)
    requires i < |samples|
    ensures Pcm(samples)[2 * i] == samples[i] % 0x100 && Pcm(samples)[2 * i + 1] == samples[i] / 0x100 % 0x100
  {
    if i < |samples| - 1 {
      PcmAt(samples[..|samples| - 1], i);
    }
  }

  /** In a file that fits, both size fields tell the true number of bytes that follow them in their chunk. */
  lemma SizesAreTrue(samples: seq<int16>)
    requires 36 + 2 * |samples| < TWO32
    ensures var b := WavBytes(samples);
            && |b| == 44 + 2 * |samples|
            && Read32(b, 4) == |b| - 8 && Read32(b, 40) == |b| - 44 == 2 * |samples|
  {
    hide WavBytes, Read32;
    FileLayout(samples);
  }
}
