/**
 * Signed 16-bit PCM and its little-endian byte form: what numpy's `tobytes()`
 * produces for an int16 array and what the Go server reads back.
 */
module Pcm {

  /** The pipe's frame geometry: 960 rows (20 ms at 48 kHz) of 2 interleaved channels. */
  const PipeFrameSize: nat := 960
  const Channels: nat := 2
  const SamplesPerFrame: nat := PipeFrameSize * Channels
  const BytesPerFrame: nat := SamplesPerFrame * 2

  type Byte = x: int | 0 <= x < 256
  type Int16 = x: int | -32768 <= x < 32768

  /** The two's-complement bit pattern of a sample, read as an unsigned 16-bit value. */
  function ToUnsigned(s: Int16): (u: nat)
    ensures u < 65536
    ensures s >= 0 ==> u == s
    ensures s < 0 ==> u == s + 65536
  {
    if s < 0 then s + 65536 else s
  }

  /** Go's `int16(u)` conversion of an unsigned 16-bit value. */
  function ToSigned(u: nat): (s: Int16)
    requires u < 65536
    ensures u < 32768 ==> s == u
    ensures u >= 32768 ==> s == u - 65536 && s < 0
  {
    if u >= 32768 then u - 65536 else u
  }

  lemma SignedUnsignedInverse(s: Int16, u: nat)
    requires u < 65536
    ensures ToSigned(ToUnsigned(s)) == s
    ensures ToUnsigned(ToSigned(u)) == u
  {
  }

  /** `binary.LittleEndian.Uint16`: low byte first; `lo | hi << 8` equals `lo + 256 * hi` for bytes. */
  function Uint16LE(lo: Byte, hi: Byte): (u: nat)
    ensures u < 65536
  {
    lo + 256 * hi
  }

  /** The little-endian bytes of a sample sequence (numpy `tobytes()` on a little-endian host). */
  function Encode(samples: seq<Int16>): (bytes: seq<Byte>)
    ensures |bytes| == 2 * |samples|
  {
    seq(2 * |samples|, k requires 0 <= k < 2 * |samples| =>
      var u := ToUnsigned(samples[k / 2]);
      if k % 2 == 0 then u % 256 else u / 256)
  }

  /** The samples whose little-endian bytes are `bytes`: sample `i` is built from bytes `2i` and `2i + 1`. */
  function Decode(bytes: seq<Byte>): (samples: seq<Int16>)
    ensures |samples| == |bytes| / 2
  {
    seq(|bytes| / 2, i requires 0 <= i < |bytes| / 2 => ToSigned(Uint16LE(bytes[2 * i], bytes[2 * i + 1])))
  }

  /** Decoding the bytes of any sample sequence gives the sequence back. */
  lemma DecodeEncode(samples: seq<Int16>)
    ensures Decode(Encode(samples)) == samples
  {
    var b := Encode(samples);
    forall i | 0 <= i < |samples|
      ensures Decode(b)[i] == samples[i]
    {
      var u := ToUnsigned(samples[i]);
      assert b[2 * i] == u % 256 && b[2 * i + 1] == u / 256;
      assert Uint16LE(b[2 * i], b[2 * i + 1]) == u;
    }
  }

  /** Encoding the samples decoded from an even-length byte string gives the bytes back. */
  lemma EncodeDecode(bytes: seq<Byte>)
    requires |bytes| % 2 == 0
    ensures Encode(Decode(bytes)) == bytes
  {
    var s := Decode(bytes);
    var e := Encode(s);
    forall k | 0 <= k < |bytes|
      ensures e[k] == bytes[k]
    {
      var i := k / 2;
      PairRoundTrip(bytes[2 * i], bytes[2 * i + 1]);
      assert s[i] == ToSigned(Uint16LE(bytes[2 * i], bytes[2 * i + 1]));
      if k % 2 == 0 {
        assert k == 2 * i;
      } else {
        assert k == 2 * i + 1;
      }
    }
  }

  /** One byte pair: the sample read from `lo, hi` is written back as `lo, hi`. */
  lemma PairRoundTrip(lo: Byte, hi: Byte)
    ensures ToUnsigned(ToSigned(Uint16LE(lo, hi))) % 256 == lo
    ensures ToUnsigned(ToSigned(Uint16LE(lo, hi))) / 256 == hi
  {
    var u := Uint16LE(lo, hi);
    assert ToUnsigned(ToSigned(u)) == u;
    assert u == hi * 256 + lo;
  }

  /** Row-major (interleaved) order of a block of rows, as numpy lays out a C-contiguous array. */
  function Interleave(rows: seq<seq<Int16>>): (flat: seq<Int16>)
    ensures (forall i :: 0 <= i < |rows| ==> |rows[i]| == Channels) ==> |flat| == Channels * |rows|
  {
    if rows == [] then [] else rows[0] + Interleave(rows[1..])
  }

  /** `frame.tobytes()` for an int16 frame of shape (rows, channels). */
  function FrameBytes(rows: seq<seq<Int16>>): (bytes: seq<Byte>)
    ensures (forall i :: 0 <= i < |rows| ==> |rows[i]| == Channels) ==> |bytes| == 2 * Channels * |rows|
  {
    Encode(Interleave(rows))
  }

  /** A full stereo pipe frame is exactly `BytesPerFrame` (3840) bytes and decodes to its 1920 interleaved samples. */
  lemma {:induction false} FrameBytesRoundTrip(rows: seq<seq<Int16>>)
    requires |rows| == PipeFrameSize
    requires forall i :: 0 <= i < |rows| ==> |rows[i]| == Channels
    ensures |FrameBytes(rows)| == BytesPerFrame
    ensures Decode(FrameBytes(rows)) == Interleave(rows)
    ensures |Decode(FrameBytes(rows))| == SamplesPerFrame
  {
    DecodeEncode(Interleave(rows));
  }
}
