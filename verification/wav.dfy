/** Sizing a track and writing its 44-byte WAV header. */
module Wav {
  import opened Options

  const SAMPLE_RATE := 44100
  const CHANNELS := 2
  const BITS := 16
  const BYTES_PER_SEC := SAMPLE_RATE * CHANNELS * 2
  const HEADER_SIZE := 44
  const MAX_TRACK_MS := 2 * 60 * 60 * 1000
  const LONG_MAX := 0x7FFF_FFFF_FFFF_FFFF
  const UINT_MAX := 0xFFFF_FFFF

  /** PCM bytes of a track of `ms` milliseconds, rounded down to whole frames; 0 means unknown. */
  function PcmBytes(ms: nat): nat {
    if ms > 0 then ms * BYTES_PER_SEC / 1000 / 4 * 4 else LONG_MAX / 2
  }

  function Le16(x: nat): seq<byte> {
    [x % 256, x / 256 % 256]
  }

  /** The low 32 bits of `x`, least significant octet first. */
  function Le32(x: nat): seq<byte> {
    [x % 256, x / 256 % 256, x / 0x1_0000 % 256, x / 0x100_0000 % 256]
  }

  function Read16(h: seq<byte>, at: nat): nat
    requires at + 2 <= |h|
  {
    h[at] as int + 256 * (h[at + 1] as int)
  }

  function Read32(h: seq<byte>, at: nat): nat
    requires at + 4 <= |h|
  {
    Read16(h, at) + 0x1_0000 * Read16(h, at + 2)
  }

  lemma Read32Le32(x: nat)
    requires x <= UINT_MAX
    ensures Read32(Le32(x), 0) == x
  {
    var y := x / 256;
    var z := y / 256;
    assert x == 256 * y + x % 256 && y == 256 * z + y % 256 && z == 256 * (z / 256) + z % 256;
    assert x / 0x1_0000 == z && x / 0x100_0000 == z / 256;
    assert z / 256 < 256;
  }

  function Clamped(x: nat): nat {
    if x > UINT_MAX then UINT_MAX else x
  }

  const RIFF: seq<byte> := [0x52, 0x49, 0x46, 0x46]
  const WAVE: seq<byte> := [0x57, 0x41, 0x56, 0x45]
  const FMT: seq<byte> := [0x66, 0x6D, 0x74, 0x20]
  const DATA: seq<byte> := [0x64, 0x61, 0x74, 0x61]

  function RiffChunk(size: nat): seq<byte> {
    RIFF + Le32(size) + WAVE
  }

  /** 16-bit stereo PCM at 44100 Hz. */
  function FormatChunk(): seq<byte> {
    FMT + Le32(16) + Le16(1) + Le16(CHANNELS) + Le32(SAMPLE_RATE)
    + Le32(SAMPLE_RATE * CHANNELS * BITS / 8) + Le16(CHANNELS * BITS / 8) + Le16(BITS)
  }

  function DataChunk(size: nat): seq<byte> {
    DATA + Le32(size)
  }

  /** The header written in front of `data` bytes of PCM. */
  function Header(data: nat): seq<byte> {
    RiffChunk(Clamped(data + 36)) + FormatChunk() + DataChunk(Clamped(data))
  }

  /** A little-endian byte buffer with a write position. */
  class LittleEndianBuffer {
    const bytes: array<byte>
    var position: nat

    ghost predicate Valid()
      reads this
    {
      position <= bytes.Length
    }

    ghost function Written(): seq<byte>
      requires Valid()
      reads this, bytes
    {
      bytes[..position]
    }

    constructor (capacity: nat)
      ensures Valid() && fresh(bytes) && bytes.Length == capacity && Written() == []
    {
      bytes := new byte[capacity];
      position := 0;
    }

    method Put(b: seq<byte>)
      requires Valid() && position + |b| <= bytes.Length
      modifies this`position, bytes
      ensures Valid() && Written() == old(Written()) + b
    {
      var i := 0;
      while i < |b|
        invariant i <= |b| && position == old(position) + i && Valid()
        invariant bytes[..position] == old(bytes[..position]) + b[..i]
      {
        bytes[position] := b[i];
        position := position + 1;
        i := i + 1;
      }
    }
  }

  lemma HeaderInParts(data: nat)
    ensures [] + RiffChunk(Clamped(data + 36)) + FormatChunk() + DataChunk(Clamped(data)) == Header(data)
    ensures |Header(data)| == HEADER_SIZE
  {
    assert [] + RiffChunk(Clamped(data + 36)) == RiffChunk(Clamped(data + 36));
  }

  method WavHeader(data: nat) returns (h: array<byte>)
    ensures h[..] == Header(data) && h.Length == HEADER_SIZE
  {
    var buffer := new LittleEndianBuffer(HEADER_SIZE);
    PutRiff(buffer, Clamped(data + 36));
    PutFormat(buffer);
    PutData(buffer, Clamped(data));
    HeaderInParts(data);
    h := buffer.bytes;
    assert h[..] == h[..HEADER_SIZE];
  }

  method PutData(buffer: LittleEndianBuffer, size: nat)
    requires buffer.Valid() && buffer.position + 8 <= buffer.bytes.Length
    modifies buffer`position, buffer.bytes
    ensures buffer.Valid() && buffer.Written() == old(buffer.Written()) + DataChunk(size)
  {
    buffer.Put(DATA + Le32(size));
  }

  method PutRiff(buffer: LittleEndianBuffer, size: nat)
    requires buffer.Valid() && buffer.position + 12 <= buffer.bytes.Length
    modifies buffer`position, buffer.bytes
    ensures buffer.Valid() && buffer.Written() == old(buffer.Written()) + RiffChunk(size)
  {
    buffer.Put(RIFF);
    buffer.Put(Le32(size));
    buffer.Put(WAVE);
  }

  method PutFormat(buffer: LittleEndianBuffer)
    requires buffer.Valid() && buffer.position + 24 <= buffer.bytes.Length
    modifies buffer`position, buffer.bytes
    ensures buffer.Valid() && buffer.Written() == old(buffer.Written()) + FormatChunk()
  {
    buffer.Put(FMT + Le32(16));
    buffer.Put(Le16(1) + Le16(CHANNELS));
    buffer.Put(Le32(SAMPLE_RATE) + Le32(SAMPLE_RATE * CHANNELS * BITS / 8));
    buffer.Put(Le16(CHANNELS * BITS / 8) + Le16(BITS));
  }

  datatype Parsed = Parsed(
    riffSize: nat, format: nat, channels: nat, rate: nat, byteRate: nat, frame: nat, bits: nat, dataSize: nat)

  /** Reads a canonical 44-byte PCM header back. */
  function Parse(h: seq<byte>): Option<Parsed> {
    if |h| < HEADER_SIZE || h[..4] != RIFF || h[8..12] != WAVE || h[12..16] != FMT || Read32(h, 16) != 16
       || h[36..40] != DATA then None
    else Some(Parsed(Read32(h, 4), Read16(h, 20), Read16(h, 22), Read32(h, 24), Read32(h, 28),
                     Read16(h, 32), Read16(h, 34), Read32(h, 40)))
  }

  const FormatFields: seq<byte> := [16, 0, 0, 0, 1, 0, 2, 0, 0x44, 0xAC, 0, 0, 0x10, 0xB1, 0x02, 0, 4, 0, 16, 0]

  lemma FormatBytes()
    ensures FormatChunk() == FMT + FormatFields
  {
    assert Le32(16) == [16, 0, 0, 0] && Le16(1) == [1, 0] && Le16(2) == [2, 0];
    assert Le32(44100) == [0x44, 0xAC, 0, 0] && Le32(176400) == [0x10, 0xB1, 0x02, 0];
    assert Le16(4) == [4, 0] && Le16(16) == [16, 0];
  }

  lemma FormatReads()
    ensures var f := FormatChunk();
            && |f| == 24 && f[..4] == FMT && Read32(f, 4) == 16 && Read16(f, 8) == 1 && Read16(f, 10) == 2
            && Read32(f, 12) == 44100 && Read32(f, 16) == 176400 && Read16(f, 20) == 4 && Read16(f, 22) == 16
  {
    FormatBytes();
    var f := FormatChunk();
    forall i | 4 <= i < 24 ensures f[i] == FormatFields[i - 4] {}
  }

  /** A field read from a chunk is the field read from the header. */
  lemma ReadWithin(a: seq<byte>, b: seq<byte>, c: seq<byte>, at: nat)
    ensures at + 2 <= |b| ==> Read16(a + b + c, |a| + at) == Read16(b, at)
    ensures at + 4 <= |b| ==> Read32(a + b + c, |a| + at) == Read32(b, at)
  {
  }

  lemma HeaderFormat(riff: seq<byte>, data: seq<byte>)
    requires |riff| == 12
    ensures var h := riff + FormatChunk() + data;
            && |h| >= 36 && h[12..16] == FMT && Read32(h, 16) == 16 && Read16(h, 20) == 1 && Read16(h, 22) == 2
            && Read32(h, 24) == 44100 && Read32(h, 28) == 176400 && Read16(h, 32) == 4 && Read16(h, 34) == 16
  {
    FormatReads();
    var f := FormatChunk();
    ReadWithin(riff, f, data, 4);
    ReadWithin(riff, f, data, 8);
    ReadWithin(riff, f, data, 10);
    ReadWithin(riff, f, data, 12);
    ReadWithin(riff, f, data, 16);
    ReadWithin(riff, f, data, 20);
    ReadWithin(riff, f, data, 22);
    assert (riff + f + data)[12..16] == f[..4];
  }

  lemma HeaderSizes(riffSize: nat, dataSize: nat, format: seq<byte>)
    requires riffSize <= UINT_MAX && dataSize <= UINT_MAX && |format| == 24
    ensures var h := RiffChunk(riffSize) + format + DataChunk(dataSize);
            && |h| == HEADER_SIZE && h[..4] == RIFF && h[8..12] == WAVE && h[36..40] == DATA
            && Read32(h, 4) == riffSize && Read32(h, 40) == dataSize
  {
    var h := RiffChunk(riffSize) + format + DataChunk(dataSize);
    Read32Le32(riffSize);
    Read32Le32(dataSize);
    assert h == RIFF + Le32(riffSize) + (WAVE + format + DataChunk(dataSize));
    ReadWithin(RIFF, Le32(riffSize), WAVE + format + DataChunk(dataSize), 0);
    var front := RiffChunk(riffSize) + format + DATA;
    assert h == front + Le32(dataSize) + [];
    ReadWithin(front, Le32(dataSize), [], 0);
  }

  /** The header parses back to 16-bit stereo at 44100 Hz with the two clamped sizes. */
  lemma HeaderParses(data: nat)
    ensures |Header(data)| == HEADER_SIZE
    ensures Parse(Header(data)) ==
            Some(Parsed(Clamped(data + 36), 1, 2, 44100, 176400, 4, 16, Clamped(data)))
  {
    FormatReads();
    HeaderSizes(Clamped(data + 36), Clamped(data), FormatChunk());
    HeaderFormat(RiffChunk(Clamped(data + 36)), DataChunk(Clamped(data)));
  }

  /** Rounding down to whole frames. */
  lemma PcmRounding(ms: nat)
    requires ms > 0
    ensures PcmBytes(ms) % 4 == 0
    ensures 1000 * PcmBytes(ms) <= ms * BYTES_PER_SEC < 1000 * (PcmBytes(ms) + 4)
  {
    var x := ms * BYTES_PER_SEC;
    var q := x / 1000;
    assert 1000 * q <= x < 1000 * q + 1000;
    assert q / 4 * 4 <= q < q / 4 * 4 + 4;
  }

  /**
   For every playable length the PCM size is the whole number of 4-byte frames
   that fit, and both RIFF sizes are written unclamped.
   */
  lemma SizesAreExact(ms: nat)
    requires 1 <= ms <= MAX_TRACK_MS
    ensures
      var pcm := PcmBytes(ms);
      && pcm % 4 == 0
      && 1000 * pcm <= ms * 176_400 < 1000 * (pcm + 4)
      && 176 <= pcm <= 1_270_080_000
      && Parse(Header(pcm)).Some?
      && Parse(Header(pcm)).value.dataSize == pcm
      && Parse(Header(pcm)).value.riffSize == HEADER_SIZE - 8 + pcm
  {
    PcmRounding(ms);
    HeaderParses(PcmBytes(ms));
  }

  /** A track of unknown length is announced with the largest sizes the header can hold. */
  lemma UnknownLengthIsClamped()
    ensures Parse(Header(PcmBytes(0))) == Some(Parsed(UINT_MAX, 1, 2, 44100, 176400, 4, 16, UINT_MAX))
    ensures HEADER_SIZE + PcmBytes(0) <= LONG_MAX
  {
    HeaderParses(PcmBytes(0));
  }
}
