/** 16-bit signed PCM samples stored little-endian in a byte buffer, as both
    A2DP sinks receive them. */
module Pcm {
  import opened CTypes

  /** The sample whose low byte is `lo` and high byte is `hi`, read as a
      two's-complement `int16_t`. */
  function DecodeInt16(lo: byte, hi: byte): (s: int16)
    ensures (s - (lo + 256 * hi)) % 0x1_0000 == 0
    ensures s < 0 <==> hi >= 0x80
  {
    ToInt16(lo + 256 * hi)
  }

  /** The two bytes, low first, that hold `s` in little-endian two's complement. */
  function EncodeInt16(s: int16): (bytes: (byte, byte))
    ensures bytes.0 + 256 * bytes.1 == if s < 0 then s + 0x1_0000 else s
  {
    var u := if s < 0 then s + 0x1_0000 else s;
    (u % 256, u / 256)
  }

  lemma DecodeEncode(s: int16)
    ensures DecodeInt16(EncodeInt16(s).0, EncodeInt16(s).1) == s
  {
  }

  lemma EncodeDecode(lo: byte, hi: byte)
    ensures EncodeInt16(DecodeInt16(lo, hi)) == (lo, hi)
  {
  }

  /** The `k`-th 16-bit sample of a byte buffer (bytes 2k and 2k+1). */
  function SampleAt(data: seq<byte>, k: nat): int16
    requires 2 * k + 1 < |data|
  {
    DecodeInt16(data[2 * k], data[2 * k + 1])
  }
}
