/**
 * The sample converter and the WAV serialiser of the capture hook (src/hooks/useAudioCapture.js):
 * clamped samples become 16-bit integers, which are written after a 44-byte RIFF/WAVE header
 * (Microsoft RIFF WAVE format, a "fmt " chunk with PCM format tag 1, one channel, 16 bits).
 */
module Wav {

  newtype byte = b: int | 0 <= b < 256
  newtype int16 = x: int | -32768 <= x < 32768

  /** The sample rate the capture context is opened with. */
  const SampleRate: nat := 44100
  const HeaderSize: nat := 44

  /** `Math.max(-1, Math.min(1, x))`. */
  function Clamp(x: real): (r: real)
    ensures -1.0 <= r <= 1.0
    ensures -1.0 <= x <= 1.0 ==> r == x
    ensures x < -1.0 ==> r == -1.0
    ensures x > 1.0 ==> r == 1.0
  {
    if x < -1.0 then -1.0 else if x > 1.0 then 1.0 else x
  }

  /** Truncation toward zero, the first step of storing a number into an `Int16Array`. */
  function Truncate(x: real): (r: int)
    ensures x >= 0.0 ==> 0 <= r && r as real <= x < r as real + 1.0
    ensures x < 0.0 ==> r <= 0 && r as real - 1.0 < x <= r as real
  {
    if x >= 0.0 then x.Floor else -((-x).Floor)
  }

  /** The wrap to 16 bits that finishes storing an integer into an `Int16Array`. */
  function ToInt16(n: int): (r: int16)
    ensures -32768 <= n < 32768 ==> r as int == n
    ensures (r as int - n) % 65536 == 0
  {
    var m := n % 65536;
    if m >= 32768 then (m - 65536) as int16 else m as int16
  }

  /** One sample of `float32To16BitPCM`: negative values scale by 0x8000, the others by 0x7fff. */
  function PcmSample(x: real): (r: int16)
    ensures x < 0.0 ==> -32768 <= r <= 0
    ensures x >= 0.0 ==> 0 <= r <= 32767
    ensures x <= -1.0 ==> r == -32768
    ensures x >= 1.0 ==> r == 32767
    ensures x < 0.0 ==> (r as int - 1) as real < Clamp(x) * 32768.0 <= r as real
    ensures x >= 0.0 ==> r as real <= Clamp(x) * 32767.0 < (r as int + 1) as real
  {
    var s := Clamp(x);
    ToInt16(Truncate(if s < 0.0 then s * 32768.0 else s * 32767.0))
  }

  /** A louder input never gives a smaller sample. */
  lemma {:induction false} PcmSampleMonotone(x: real, y: real)
    requires x <= y
    ensures PcmSample(x) <= PcmSample(y)
  {
    if x < 0.0 && y < 0.0 {
      FloorMonotone(-Clamp(y) * 32768.0, -Clamp(x) * 32768.0);
    } else if x >= 0.0 {
      FloorMonotone(Clamp(x) * 32767.0, Clamp(y) * 32767.0);
    }
  }

  lemma FloorMonotone(a: real, b: real)
    requires a <= b
    ensures a.Floor <= b.Floor
  {
  }

  /** `float32To16BitPCM`: a new array of the same length holding each converted sample. */
  method Float32To16BitPCM(samples: seq<real>) returns (pcm: array<int16>)
    ensures pcm.Length == |samples|
    ensures forall i :: 0 <= i < |samples| ==> pcm[i] == PcmSample(samples[i])
  {
    pcm := new int16[|samples|];
    for i := 0 to |samples|
      invariant forall k :: 0 <= k < i ==> pcm[k] == PcmSample(samples[k])
    {
      var s := Clamp(samples[i]);
      pcm[i] := ToInt16(Truncate(if s < 0.0 then s * 32768.0 else s * 32767.0));
    }
  }

  // ---------------------------------------------------------------- little-endian layout

  /** `setUint8(offset + i, str.charCodeAt(i))` for each character: the code unit taken modulo 256. */
  function Ascii(s: string): (r: seq<byte>)
    ensures |r| == |s|
  {
    seq(|s|, i requires 0 <= i < |s| => ((s[i] as int) % 256) as byte)
  }

  /** `setUint16(offset, v, true)`: the value modulo 2^16, low byte first. */
  function U16LE(v: int): (r: seq<byte>)
    ensures |r| == 2
  {
    var u := v % 0x1_0000;
    [(u % 256) as byte, (u / 256) as byte]
  }

  /** `setUint32(offset, v, true)`: the value modulo 2^32, least significant byte first. */
  function U32LE(v: int): (r: seq<byte>)
    ensures |r| == 4
  {
    var u := v % 0x1_0000_0000;
    var q1 := u / 256;
    var q2 := q1 / 256;
    [(u % 256) as byte, (q1 % 256) as byte, (q2 % 256) as byte, (q2 / 256) as byte]
  }

  function ReadU16LE(bytes: seq<byte>, offset: nat): int
    requires offset + 2 <= |bytes|
  {
    bytes[offset] as int + 256 * bytes[offset + 1] as int
  }

  function ReadU32LE(bytes: seq<byte>, offset: nat): int
    requires offset + 4 <= |bytes|
  {
    bytes[offset] as int + 256 * bytes[offset + 1] as int
    + 0x1_0000 * bytes[offset + 2] as int + 0x100_0000 * bytes[offset + 3] as int
  }

  lemma U16RoundTrip(v: int)
    ensures ReadU16LE(U16LE(v), 0) == v % 0x1_0000
  {
  }

  lemma U32RoundTrip(v: int)
    ensures ReadU32LE(U32LE(v), 0) == v % 0x1_0000_0000
  {
    var u := v % 0x1_0000_0000;
    var q1 := u / 256;
    var q2 := q1 / 256;
    assert u == u % 256 + 256 * q1;
    assert q1 == q1 % 256 + 256 * q2;
    assert q2 == q2 % 256 + 256 * (q2 / 256);
  }

  /** Two's-complement bits of a sample as an unsigned 16-bit value. */
  function Unsigned(x: int16): (u: int)
    ensures 0 <= u < 0x1_0000
  {
    if x < 0 then x as int + 0x1_0000 else x as int
  }

  /** Byte `i` of the `Int16Array`'s buffer on a little-endian host. */
  function PcmByte(pcm: seq<int16>, i: nat): byte
    requires i < 2 * |pcm|
  {
    var u := Unsigned(pcm[i / 2]);
    if i % 2 == 0 then (u % 256) as byte else (u / 256) as byte
  }

  /** `new Uint8Array(pcm16.buffer)`. */
  function PcmBytes(pcm: seq<int16>): (r: seq<byte>)
    ensures |r| == 2 * |pcm|
  {
    seq(2 * |pcm|, i requires 0 <= i < 2 * |pcm| => PcmByte(pcm, i))
  }

  /** Reading a little-endian 16-bit two's-complement sample. */
  function DecodeSample(lo: byte, hi: byte): int16 {
    var u := lo as int + 256 * hi as int;
    if u >= 32768 then (u - 0x1_0000) as int16 else u as int16
  }

  /** The data chunk read back as samples. */
  function DecodePcm(bytes: seq<byte>): (r: seq<int16>)
    ensures |r| == |bytes| / 2
  {
    seq(|bytes| / 2, k requires 0 <= k < |bytes| / 2 => DecodeSample(bytes[2 * k], bytes[2 * k + 1]))
  }

  /** One sample's two bytes decode back to it. */
  lemma SampleRoundTrip(x: int16)
    ensures DecodeSample((Unsigned(x) % 256) as byte, (Unsigned(x) / 256) as byte) == x
  {
    var u := Unsigned(x);
    assert u % 256 + 256 * (u / 256) == u;
  }

  /** The two bytes of sample `k` are at `2k` (low) and `2k + 1` (high). */
  lemma BytesOfSample(pcm: seq<int16>, k: nat)
    requires k < |pcm|
    ensures PcmByte(pcm, 2 * k) == (Unsigned(pcm[k]) % 256) as byte
    ensures PcmByte(pcm, 2 * k + 1) == (Unsigned(pcm[k]) / 256) as byte
  {
    assert (2 * k) / 2 == k && (2 * k + 1) / 2 == k;
    assert (2 * k) % 2 == 0 && (2 * k + 1) % 2 == 1;
  }

  /** The sample bytes decode back to the samples. */
  lemma {:induction false} PcmBytesRoundTrip(pcm: seq<int16>)
    ensures DecodePcm(PcmBytes(pcm)) == pcm
  {
    var b := PcmBytes(pcm);
    forall k | 0 <= k < |pcm|
      ensures DecodePcm(b)[k] == pcm[k]
    {
      BytesOfSample(pcm, k);
      SampleRoundTrip(pcm[k]);
    }
  }

  /** The RIFF chunk descriptor: "RIFF", the size of the rest of the file, "WAVE". */
  function RiffHeader(dataSize: int): (r: seq<byte>)
    ensures |r| == 12
  {
    Ascii("RIFF") + U32LE(36 + dataSize) + Ascii("WAVE")
  }

  /** The "fmt " chunk: its format half, then its rate half. */
  function FmtChunk(rate: int): (r: seq<byte>)
    ensures |r| == 24
  {
    FmtFormat() + FmtRates(rate)
  }

  /** The first half of the "fmt " chunk: the tag "fmt ", size 16, PCM format tag 1, one channel. */
  function FmtFormat(): (r: seq<byte>)
    ensures |r| == 12
  {
    Ascii("fmt ") + U32LE(16) + U16LE(1) + U16LE(1)
  }

  /** The second half of the "fmt " chunk: rate, byte rate, block align 2, 16 bits per sample. */
  function FmtRates(rate: int): (r: seq<byte>)
    ensures |r| == 12
  {
    U32LE(rate) + U32LE(rate * 2) + U16LE(2) + U16LE(16)
  }

  /** The "data" chunk header: "data" and the size of the sample bytes. */
  function DataHeader(dataSize: int): (r: seq<byte>)
    ensures |r| == 8
  {
    Ascii("data") + U32LE(dataSize)
  }

  /** The 44 header bytes `createWavBlob` writes for `n` samples at `rate` Hz. */
  function WavHeader(n: nat, rate: int): (r: seq<byte>)
    ensures |r| == HeaderSize
  {
    RiffHeader(2 * n) + FmtChunk(rate) + DataHeader(2 * n)
  }

  /** The whole file: header, then the sample bytes. */
  function WavFile(pcm: seq<int16>, rate: int): (r: seq<byte>)
    ensures |r| == HeaderSize + 2 * |pcm|
  {
    WavHeader(|pcm|, rate) + PcmBytes(pcm)
  }

  lemma RiffHeaderFields(dataSize: int)
    ensures var h := RiffHeader(dataSize);
      h[0..4] == Ascii("RIFF") && ReadU32LE(h, 4) == (36 + dataSize) % 0x1_0000_0000 && h[8..12] == Ascii("WAVE")
  {
    var h := RiffHeader(dataSize);
    assert h[0..4] == Ascii("RIFF");
    assert h[8..12] == Ascii("WAVE");
    U32RoundTrip(36 + dataSize);
  }

  lemma FmtFormatFields()
    ensures var f := FmtFormat();
      f[0..4] == Ascii("fmt ") && ReadU32LE(f, 4) == 16 && ReadU16LE(f, 8) == 1 && ReadU16LE(f, 10) == 1
  {
    var f := FmtFormat();
    var size, one := U32LE(16), U16LE(1);
    assert f[0..4] == Ascii("fmt ") && f[4..8] == size && f[8..10] == one && f[10..12] == one;
    ReadInPart(f, size, 4, 0);
    ReadU16InPart(f, one, 8, 0);
    ReadU16InPart(f, one, 10, 0);
    U32RoundTrip(16);
    U16RoundTrip(1);
  }

  lemma FmtRatesFields(rate: int)
    ensures var f := FmtRates(rate);
      && ReadU32LE(f, 0) == rate % 0x1_0000_0000 && ReadU32LE(f, 4) == (rate * 2) % 0x1_0000_0000
      && ReadU16LE(f, 8) == 2 && ReadU16LE(f, 10) == 16
  {
    var f := FmtRates(rate);
    var r, br, align, bits := U32LE(rate), U32LE(rate * 2), U16LE(2), U16LE(16);
    assert f[0..4] == r && f[4..8] == br && f[8..10] == align && f[10..12] == bits;
    ReadInPart(f, r, 0, 0);
    ReadInPart(f, br, 4, 0);
    ReadU16InPart(f, align, 8, 0);
    ReadU16InPart(f, bits, 10, 0);
    U32RoundTrip(rate);
    U32RoundTrip(rate * 2);
    U16RoundTrip(2);
    U16RoundTrip(16);
  }

  lemma FmtChunkFields(rate: int)
    ensures var f := FmtChunk(rate);
      && f[0..4] == Ascii("fmt ") && ReadU32LE(f, 4) == 16 && ReadU16LE(f, 8) == 1 && ReadU16LE(f, 10) == 1
      && ReadU32LE(f, 12) == rate % 0x1_0000_0000 && ReadU32LE(f, 16) == (rate * 2) % 0x1_0000_0000
      && ReadU16LE(f, 20) == 2 && ReadU16LE(f, 22) == 16
  {
    var f, a, b := FmtChunk(rate), FmtFormat(), FmtRates(rate);
    assert f[0..12] == a && f[12..24] == b;
    FmtFormatFields();
    FmtRatesFields(rate);
    ReadInPart(f, a, 0, 0);
    ReadInPart(f, a, 0, 4);
    ReadU16InPart(f, a, 0, 8);
    ReadU16InPart(f, a, 0, 10);
    ReadInPart(f, b, 12, 0);
    ReadInPart(f, b, 12, 4);
    ReadU16InPart(f, b, 12, 8);
    ReadU16InPart(f, b, 12, 10);
  }

  lemma DataHeaderFields(dataSize: int)
    ensures var d := DataHeader(dataSize);
      d[0..4] == Ascii("data") && ReadU32LE(d, 4) == dataSize % 0x1_0000_0000
  {
    var d := DataHeader(dataSize);
    assert d[0..4] == Ascii("data");
    U32RoundTrip(dataSize);
  }

  /** Reading at an offset inside a part of a concatenation reads that part. */
  lemma ReadInPart(w: seq<byte>, part: seq<byte>, start: nat, offset: nat)
    requires start + |part| <= |w| && w[start..start + |part|] == part && offset + 4 <= |part|
    ensures ReadU32LE(w, start + offset) == ReadU32LE(part, offset)
    ensures ReadU16LE(w, start + offset) == ReadU16LE(part, offset)
    ensures w[start + offset..start + offset + 4] == part[offset..offset + 4]
  {
    assert w[start + offset] == part[offset] && w[start + offset + 1] == part[offset + 1];
    assert w[start + offset + 2] == part[offset + 2] && w[start + offset + 3] == part[offset + 3];
  }

  lemma ReadU16InPart(w: seq<byte>, part: seq<byte>, start: nat, offset: nat)
    requires start + |part| <= |w| && w[start..start + |part|] == part && offset + 2 <= |part|
    ensures ReadU16LE(w, start + offset) == ReadU16LE(part, offset)
  {
    assert w[start + offset] == part[offset] && w[start + offset + 1] == part[offset + 1];
  }

  /** The RIFF descriptor at the start of a buffer, read field by field. */
  lemma RiffPart(w: seq<byte>, dataSize: int)
    requires |w| >= 12 && w[0..12] == RiffHeader(dataSize)
    ensures w[0..4] == Ascii("RIFF") && ReadU32LE(w, 4) == (36 + dataSize) % 0x1_0000_0000 && w[8..12] == Ascii("WAVE")
  {
    var r := RiffHeader(dataSize);
    RiffHeaderFields(dataSize);
    ReadInPart(w, r, 0, 0);
    ReadInPart(w, r, 0, 4);
    ReadInPart(w, r, 0, 8);
  }

  /** The "fmt " chunk at byte 12 of a buffer, read field by field. */
  lemma FmtPart(w: seq<byte>, rate: int)
    requires |w| >= 36 && w[12..36] == FmtChunk(rate)
    ensures && w[12..16] == Ascii("fmt ")
      && ReadU32LE(w, 16) == 16
      && ReadU16LE(w, 20) == 1
      && ReadU16LE(w, 22) == 1
      && ReadU32LE(w, 24) == rate % 0x1_0000_0000
      && ReadU32LE(w, 28) == (rate * 2) % 0x1_0000_0000
      && ReadU16LE(w, 32) == 2
      && ReadU16LE(w, 34) == 16
  {
    var f := FmtChunk(rate);
    FmtChunkFields(rate);
    ReadInPart(w, f, 12, 0);
    ReadInPart(w, f, 12, 4);
    ReadU16InPart(w, f, 12, 8);
    ReadU16InPart(w, f, 12, 10);
    ReadInPart(w, f, 12, 12);
    ReadInPart(w, f, 12, 16);
    ReadU16InPart(w, f, 12, 20);
    ReadU16InPart(w, f, 12, 22);
  }

  /** The "data" chunk header at byte 36 of a buffer, read field by field. */
  lemma DataPart(w: seq<byte>, dataSize: int)
    requires |w| >= 44 && w[36..44] == DataHeader(dataSize)
    ensures w[36..40] == Ascii("data") && ReadU32LE(w, 40) == dataSize % 0x1_0000_0000
  {
    var d := DataHeader(dataSize);
    DataHeaderFields(dataSize);
    ReadInPart(w, d, 36, 0);
    ReadInPart(w, d, 36, 4);
  }

  /** The three header parts sit at bytes 0, 12 and 36 of a buffer that starts with the header. */
  lemma HeaderParts(w: seq<byte>, n: nat, rate: int)
    requires |w| >= HeaderSize && w[..HeaderSize] == WavHeader(n, rate)
    ensures w[0..12] == RiffHeader(2 * n) && w[12..36] == FmtChunk(rate) && w[36..44] == DataHeader(2 * n)
  {
    var h := WavHeader(n, rate);
    assert w[0..12] == h[0..12] && w[12..36] == h[12..36] && w[36..44] == h[36..44];
  }

  /** Every header field sits at its offset with its value, and the samples follow in order. */
  lemma {:induction false} WavFileLayout(pcm: seq<int16>, rate: int)
    ensures var w := WavFile(pcm, rate); var n := |pcm|;
      && w[0..4] == Ascii("RIFF")
      && ReadU32LE(w, 4) == (36 + 2 * n) % 0x1_0000_0000
      && w[8..12] == Ascii("WAVE")
      && w[12..16] == Ascii("fmt ")
      && ReadU32LE(w, 16) == 16
      && ReadU16LE(w, 20) == 1
      && ReadU16LE(w, 22) == 1
      && ReadU32LE(w, 24) == rate % 0x1_0000_0000
      && ReadU32LE(w, 28) == (rate * 2) % 0x1_0000_0000
      && ReadU16LE(w, 32) == 2
      && ReadU16LE(w, 34) == 16
      && w[36..40] == Ascii("data")
      && ReadU32LE(w, 40) == (2 * n) % 0x1_0000_0000
      && DecodePcm(w[HeaderSize..]) == pcm
  {
    var w := WavFile(pcm, rate);
    var n := |pcm|;
    assert w[..HeaderSize] == WavHeader(n, rate);
    assert w[HeaderSize..] == PcmBytes(pcm);
    HeaderParts(w, n, rate);
    PcmBytesRoundTrip(pcm);
    RiffPart(w, 2 * n);
    FmtPart(w, rate);
    DataPart(w, 2 * n);
  }

  // ---------------------------------------------------------------- createWavBlob

  /** Write `bytes` at `offset` (one `setUint8`, `setUint16` or `setUint32` call, or one `writeStr`). */
  method Put(buf: array<byte>, offset: nat, bytes: seq<byte>)
    requires offset + |bytes| <= buf.Length
    modifies buf
    ensures buf[..offset + |bytes|] == old(buf[..offset]) + bytes
    ensures buf[offset + |bytes|..] == old(buf[offset + |bytes|..])
    ensures forall k :: offset + |bytes| <= k < buf.Length ==> buf[k] == old(buf[k])
  {
    for i := 0 to |bytes|
      invariant buf[..offset] == old(buf[..offset])
      invariant forall k :: 0 <= k < i ==> buf[offset + k] == bytes[k]
      invariant buf[offset + |bytes|..] == old(buf[offset + |bytes|..])
    {
      buf[offset + i] := bytes[i];
    }
    assert buf[..offset + |bytes|] == buf[..offset] + buf[offset..offset + |bytes|];
  }

  /** The first three header writes of `createWavBlob`, at offsets 0, 4 and 8. */
  method WriteRiffHeader(buf: array<byte>, dataSize: int)
    requires 12 <= buf.Length
    modifies buf
    ensures buf[..12] == RiffHeader(dataSize)
    ensures buf[12..] == old(buf[12..])
  {
    Put(buf, 0, Ascii("RIFF"));
    Put(buf, 4, U32LE(36 + dataSize));
    Put(buf, 8, Ascii("WAVE"));
  }

  /** The "fmt " writes of `createWavBlob`, at offsets 12 to 34. */
  method WriteFmtChunk(buf: array<byte>, rate: int)
    requires 36 <= buf.Length
    modifies buf
    ensures buf[..36] == old(buf[..12]) + FmtChunk(rate)
    ensures buf[36..] == old(buf[36..])
  {
    ghost var before := buf[..12];
    WriteFmtFormat(buf);
    WriteFmtRates(buf, rate);
    assert buf[..36] == before + FmtFormat() + FmtRates(rate);
  }

  /** The first half of the "fmt " writes: the chunk id, its size, the PCM format tag and the channel count. */
  method WriteFmtFormat(buf: array<byte>)
    requires 36 <= buf.Length
    modifies buf
    ensures buf[..24] == old(buf[..12]) + FmtFormat()
    ensures buf[24..] == old(buf[24..])
  {
    Put(buf, 12, Ascii("fmt "));
    Put(buf, 16, U32LE(16));
    Put(buf, 20, U16LE(1));
    Put(buf, 22, U16LE(1));
  }

  /** The second half of the "fmt " writes: sample rate, byte rate, block alignment and bits per sample. */
  method WriteFmtRates(buf: array<byte>, rate: int)
    requires 36 <= buf.Length
    modifies buf
    ensures buf[..36] == old(buf[..24]) + FmtRates(rate)
    ensures buf[36..] == old(buf[36..])
  {
    Put(buf, 24, U32LE(rate));
    Put(buf, 28, U32LE(rate * 2));
    Put(buf, 32, U16LE(2));
    Put(buf, 34, U16LE(16));
  }

  /** The "data" writes of `createWavBlob`, at offsets 36 and 40. */
  method WriteDataHeader(buf: array<byte>, dataSize: int)
    requires 44 <= buf.Length
    modifies buf
    ensures buf[..44] == old(buf[..36]) + DataHeader(dataSize)
    ensures buf[44..] == old(buf[44..])
  {
    Put(buf, 36, Ascii("data"));
    Put(buf, 40, U32LE(dataSize));
  }

  /** `createWavBlob`: a buffer of 44 + 2n bytes holding the header and then the sample bytes. */
  method CreateWavBlob(pcm: array<int16>, sampleRate: int) returns (wav: array<byte>)
    ensures wav[..] == WavFile(pcm[..], sampleRate)
  {
    var dataSize := pcm.Length * 2;
    wav := new byte[HeaderSize + dataSize];
    WriteRiffHeader(wav, dataSize);
    WriteFmtChunk(wav, sampleRate);
    WriteDataHeader(wav, dataSize);
    assert wav[..HeaderSize] == WavHeader(pcm.Length, sampleRate);
    var bytes := PcmBytes(pcm[..]);
    for i := 0 to dataSize
      invariant wav[..HeaderSize] == WavHeader(pcm.Length, sampleRate)
      invariant forall k :: 0 <= k < i ==> wav[HeaderSize + k] == bytes[k]
    {
      wav[HeaderSize + i] := bytes[i];
    }
    assert wav[..] == wav[..HeaderSize] + wav[HeaderSize..];
  }
}
