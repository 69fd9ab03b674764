/** The RIFF/WAVE container that the voice controller puts around raw PCM, and a reader of
    it. Chunk layout as in Multimedia Programming Interface and Data Specifications 1.0,
    "Waveform Audio File Format". */
module PcmWav {
  import opened Wrappers

  newtype byte = x: int | 0 <= x < 256

  const HEADER := 44
  const MAX_AUDIO_BYTES := 5 * 1024 * 1024

  const RATES: set<int> := {8_000, 16_000, 22_050, 24_000, 32_000, 44_100, 48_000, 88_200, 96_000}
  const CHANNELS: set<int> := {1, 2}

  // -------------------------------------------------------------------------
  // Little-endian fields, as a data view writes them: modulo their width
  // -------------------------------------------------------------------------

  function Le16(v: nat): seq<byte> {
    [(v % 256) as byte, (v / 256 % 256) as byte]
  }

  function Le32(v: nat): seq<byte> {
    [(v % 256) as byte, (v / 256 % 256) as byte, (v / 65_536 % 256) as byte, (v / 16_777_216 % 256) as byte]
  }

  function Read16(bs: seq<byte>, at: nat): nat
    requires at + 2 <= |bs|
  {
    bs[at] as nat + 256 * bs[at + 1] as nat
  }

  function Read32(bs: seq<byte>, at: nat): nat
    requires at + 4 <= |bs|
  {
    bs[at] as nat + 256 * bs[at + 1] as nat + 65_536 * bs[at + 2] as nat + 16_777_216 * bs[at + 3] as nat
  }

  lemma Le16RoundTrip(v: nat)
    requires v < 65_536
    ensures Read16(Le16(v), 0) == v
  {}

  lemma Le32RoundTrip(v: nat)
    requires v < 0x1_0000_0000
    ensures Read32(Le32(v), 0) == v
  {
    assert v == v / 256 * 256 + v % 256;
    assert v / 256 == v / 65_536 * 256 + v / 256 % 256;
    assert v / 65_536 == v / 16_777_216 * 256 + v / 65_536 % 256;
  }

  // -------------------------------------------------------------------------
  // What a reader makes of a file
  // -------------------------------------------------------------------------

  datatype Wave = Wave(rate: nat, channels: nat, bytesPerSecond: nat, blockAlign: nat, bitsPerSample: nat,
                       data: seq<byte>)

  predicate Tagged(bs: seq<byte>, at: nat, tag: seq<byte>) {
    at + |tag| <= |bs| && bs[at..at + |tag|] == tag
  }

  const RIFF: seq<byte> := [0x52, 0x49, 0x46, 0x46]
  const WAVE: seq<byte> := [0x57, 0x41, 0x56, 0x45]
  const FMT: seq<byte> := [0x66, 0x6D, 0x74, 0x20]
  const DATA: seq<byte> := [0x64, 0x61, 0x74, 0x61]

  /** A reader of the canonical PCM form: one RIFF chunk that fills the file, a sixteen-byte
      format chunk, uncompressed samples, and the data chunk that ends it. */
  function ReadWave(bs: seq<byte>): Option<Wave> {
    if |bs| < HEADER || !Tagged(bs, 0, RIFF) || !Tagged(bs, 8, WAVE) || !Tagged(bs, 12, FMT) || !Tagged(bs, 36, DATA)
    then None
    else if Read32(bs, 4) + 8 != |bs| || Read32(bs, 16) != 16 || Read16(bs, 20) != 1 || Read32(bs, 40) + HEADER != |bs|
         then None
    else
      var w := Wave(Read32(bs, 24), Read16(bs, 22), Read32(bs, 28), Read16(bs, 32), Read16(bs, 34), bs[HEADER..]);
      if w.channels == 0 || w.blockAlign != w.channels * (w.bitsPerSample / 8)
      || w.bytesPerSecond != w.rate * w.blockAlign
         || w.blockAlign == 0 || |w.data| % w.blockAlign != 0 then None
      else Some(w)
  }

  // -------------------------------------------------------------------------
  // The writer
  // -------------------------------------------------------------------------

  class ByteBuffer {
    const bytes: array<byte>

    constructor (length: nat)
      ensures fresh(bytes) && bytes.Length == length
    {
      bytes := new byte[length];
    }

    method SetUint16(at: nat, v: nat)
      requires at + 2 <= bytes.Length
      modifies bytes
      ensures bytes[..] == old(bytes[..at]) + Le16(v) + old(bytes[at + 2..])
    {
      bytes[at], bytes[at + 1] := (v % 256) as byte, (v / 256 % 256) as byte;
    }

    method SetUint32(at: nat, v: nat)
      requires at + 4 <= bytes.Length
      modifies bytes
      ensures bytes[..] == old(bytes[..at]) + Le32(v) + old(bytes[at + 4..])
    {
      bytes[at], bytes[at + 1] := (v % 256) as byte, (v / 256 % 256) as byte;
      bytes[at + 2], bytes[at + 3] := (v / 65_536 % 256) as byte, (v / 16_777_216 % 256) as byte;
    }

    method WriteTag(at: nat, tag: seq<byte>)
      requires at + |tag| <= bytes.Length
      modifies bytes
      ensures bytes[..] == old(bytes[..at]) + tag + old(bytes[at + |tag|..])
    {
      var i := 0;
      while i < |tag|
        invariant 0 <= i <= |tag|
        invariant bytes[..at] == old(bytes[..at]) && bytes[at..at + i] == tag[..i]
                  && bytes[at + i..] == old(bytes[at + i..])
      {
        bytes[at + i] := tag[i];
        i := i + 1;
      }
    }
  }

  /** The header, as the sequence of its fields. */
  function Header(size: nat, rate: nat, channels: nat): seq<byte> {
    RIFF + Le32(36 + size) + WAVE + FMT + Le32(16) + Le16(1) + Le16(channels) + Le32(rate)
    + Le32(rate * channels * 2) + Le16(channels * 2) + Le16(16) + DATA + Le32(size)
  }

  lemma HeaderFields(size: nat, rate: nat, channels: nat, pcm: seq<byte>)
    ensures var bs := Header(size, rate, channels) + pcm;
            && |bs| == HEADER + |pcm| && bs[HEADER..] == pcm
            && bs[0..4] == RIFF && bs[4..8] == Le32(36 + size) && bs[8..12] == WAVE && bs[12..16] == FMT
            && bs[16..20] == Le32(16)
            && bs[20..22] == Le16(1) && bs[22..24] == Le16(channels) && bs[24..28] == Le32(rate)
            && bs[28..32] == Le32(rate * channels * 2) && bs[32..34] == Le16(channels * 2) && bs[34..36] == Le16(16)
            && bs[36..40] == DATA && bs[40..44] == Le32(size)
  {}

  lemma ReadAt(bs: seq<byte>, at: nat)
    ensures at + 2 <= |bs| ==> Read16(bs, at) == Read16(bs[at..at + 2], 0)
    ensures at + 4 <= |bs| ==> Read32(bs, at) == Read32(bs[at..at + 4], 0)
  {}

  lemma SizesFit(size: nat, rate: nat, channels: nat)
    requires rate in RATES && channels in CHANNELS && size <= MAX_AUDIO_BYTES
    ensures 36 + size < 0x1_0000_0000 && rate < 0x1_0000_0000 && rate * channels * 2 < 0x1_0000_0000
            && channels * 2 < 65_536
    ensures rate * channels * 2 == rate * (channels * 2) && (channels == 1 || channels == 2)
  {}

  lemma FieldsRead(pcm: seq<byte>, rate: nat, channels: nat)
    requires rate in RATES && channels in CHANNELS && |pcm| <= MAX_AUDIO_BYTES
    ensures var bs := Header(|pcm|, rate, channels) + pcm;
            && |bs| == HEADER + |pcm| && Read32(bs, 4) == 36 + |pcm| && Read32(bs, 16) == 16 && Read16(bs, 20) == 1
            && Read16(bs, 22) == channels && Read32(bs, 24) == rate && Read32(bs, 28) == rate * channels * 2
            && Read16(bs, 32) == channels * 2 && Read16(bs, 34) == 16 && Read32(bs, 40) == |pcm|
  {
    var bs := Header(|pcm|, rate, channels) + pcm;
    HeaderFields(|pcm|, rate, channels, pcm);
    SizesFit(|pcm|, rate, channels);
    hide Header, Read16, Read32, Le16, Le32, RATES, CHANNELS;
    ReadAt(bs, 4); ReadAt(bs, 16); ReadAt(bs, 20); ReadAt(bs, 22); ReadAt(bs, 24);
    ReadAt(bs, 28); ReadAt(bs, 32); ReadAt(bs, 34); ReadAt(bs, 40);
    Le32RoundTrip(36 + |pcm|); Le32RoundTrip(16); Le16RoundTrip(1); Le16RoundTrip(channels); Le32RoundTrip(rate);
    Le32RoundTrip(rate * channels * 2); Le16RoundTrip(channels * 2); Le16RoundTrip(16); Le32RoundTrip(|pcm|);
  }

  /** Round trip: for every buffer of whole frames within the limit and every allowed rate
      and channel count, no field overflows and a reader gets back the format and exactly
      the bytes. */
  lemma WaveRoundTrip(pcm: seq<byte>, rate: nat, channels: nat)
    requires rate in RATES && channels in CHANNELS && |pcm| % (2 * channels) == 0 && |pcm| <= MAX_AUDIO_BYTES
    ensures ReadWave(Header(|pcm|, rate, channels) + pcm) == Some(Wave(rate, channels, rate * channels * 2,
                                                                       channels * 2, 16, pcm))
  {
    HeaderFields(|pcm|, rate, channels, pcm);
    SizesFit(|pcm|, rate, channels);
    FieldsRead(pcm, rate, channels);
    hide Header, Read16, Read32, Le16, Le32, RATES;
  }

  /** The writer's own steps, in place. */
  method WritePcmWav(pcm: seq<byte>, rate: nat, channels: nat) returns (wav: array<byte>)
    ensures wav[..] == Header(|pcm|, rate, channels) + pcm
    ensures rate in RATES && channels in CHANNELS && |pcm| % (2 * channels) == 0 && |pcm| <= MAX_AUDIO_BYTES ==>
              ReadWave(wav[..]) == Some(Wave(rate, channels, rate * channels * 2, channels * 2, 16, pcm))
  {
    var view := new ByteBuffer(44 + |pcm|);
    wav := view.bytes;
    view.WriteTag(0, RIFF);
    view.SetUint32(4, 36 + |pcm|);
    view.WriteTag(8, WAVE);
    view.WriteTag(12, FMT);
    assert wav[..16] == RIFF + Le32(36 + |pcm|) + WAVE + FMT;
    view.SetUint32(16, 16);
    view.SetUint16(20, 1);
    view.SetUint16(22, channels);
    view.SetUint32(24, rate);
    assert wav[..28] == RIFF + Le32(36 + |pcm|) + WAVE + FMT + Le32(16) + Le16(1) + Le16(channels) + Le32(rate);
    view.SetUint32(28, rate * channels * 2);
    view.SetUint16(32, channels * 2);
    view.SetUint16(34, 16);
    view.WriteTag(36, DATA);
    view.SetUint32(40, |pcm|);
    assert wav[..44] == Header(|pcm|, rate, channels);
    view.WriteTag(44, pcm);
    assert wav[..] == wav[..44] + wav[44..];
    if rate in RATES && channels in CHANNELS && |pcm| % (2 * channels) == 0 && |pcm| <= MAX_AUDIO_BYTES {
      WaveRoundTrip(pcm, rate, channels);
    }
  }
}
