/**
  The PCM serialiser of the head unit: `int16SliceToBytes` turns a buffer of
  signed 16-bit microphone samples into the little-endian byte stream carried
  in an AudioChunk, and a decoder that reads each byte pair back as a signed
  16-bit sample.
 */
module Pcm {

  /** A Go `int16`: a signed 16-bit two's-complement sample. */
  newtype int16 = x: int | -0x8000 <= x < 0x8000

  /** A Go `byte` (`uint8`). */
  newtype byte = x: int | 0 <= x < 0x100

  /** The number of bytes one sample occupies on the wire. */
  const BytesPerSample: nat := 2

  /** The unsigned 16-bit pattern of a sample's two's-complement form. */
  function Uint16Of(s: int16): (u: int)
    ensures 0 <= u < 0x10000
    ensures u % 0x10000 == (s as int) % 0x10000
  {
    if s < 0 then s as int + 0x10000 else s as int
  }

  /** Go's `byte(sample)`: the conversion keeps the low eight bits. */
  function LowByte(s: int16): byte
  {
    ((s as int) % 0x100) as byte
  }

  /** Go's `byte(sample >> 8)`: `>>` on a signed integer is an arithmetic
      shift (floor division by 256), then the conversion keeps eight bits. */
  function HighByte(s: int16): byte
  {
    (((s as int) / 0x100) % 0x100) as byte
  }

  /** The two bytes written for one sample are the low and the high byte of its
      two's-complement pattern, in that order (little-endian). */
  lemma BytesOfSample(s: int16)
    ensures LowByte(s) as int == Uint16Of(s) % 0x100
    ensures HighByte(s) as int == Uint16Of(s) / 0x100
    ensures LowByte(s) as int + 0x100 * HighByte(s) as int == Uint16Of(s)
  {
  }

  /** The bytes of one sample, low byte first. */
  function EncodeSample(s: int16): seq<byte>
  {
    [LowByte(s), HighByte(s)]
  }

  /** The reference serialisation: the samples' byte pairs, in sample order. */
  function Encode(data: seq<int16>): (r: seq<byte>)
    ensures |r| == BytesPerSample * |data|
    ensures forall i :: 0 <= i < |data| ==>
              r[2 * i] == LowByte(data[i]) && r[2 * i + 1] == HighByte(data[i])
  {
    if |data| == 0 then []
    else
      var rest := Encode(data[1..]);
      assert forall i :: 1 <= i < |data| ==> data[i] == data[1..][i - 1];
      EncodeSample(data[0]) + rest
  }

  /** `int16SliceToBytes`: allocate `2 * len(data)` zero bytes, then write byte
      `2i` and byte `2i+1` for every sample `i`. */
  method Int16SliceToBytes(data: seq<int16>) returns (bytes: seq<byte>)
    ensures |bytes| == 2 * |data|
    ensures forall i :: 0 <= i < |data| ==>
              bytes[2 * i] == LowByte(data[i]) && bytes[2 * i + 1] == HighByte(data[i])
    ensures bytes == Encode(data)
  {
    bytes := seq(2 * |data|, _ => 0 as byte);
    for i := 0 to |data|
      invariant |bytes| == 2 * |data|
      invariant forall j :: 0 <= j < i ==>
                  bytes[2 * j] == LowByte(data[j]) && bytes[2 * j + 1] == HighByte(data[j])
    {
      bytes := bytes[2 * i := LowByte(data[i])][2 * i + 1 := HighByte(data[i])];
    }
    var e := Encode(data);
    forall k | 0 <= k < |bytes|
      ensures bytes[k] == e[k]
    {
      var i := k / 2;
      assert bytes[2 * i] == LowByte(data[i]) == e[2 * i];
      assert bytes[2 * i + 1] == HighByte(data[i]) == e[2 * i + 1];
      assert k == 2 * i || k == 2 * i + 1;
    }
  }

  /** Reads a little-endian byte pair as `lo | hi << 8` and reinterprets the
      16-bit pattern as a signed sample. */
  function DecodeSample(lo: byte, hi: byte): int16
  {
    var u := lo as int + 0x100 * hi as int;
    (if u < 0x8000 then u else u - 0x10000) as int16
  }

  /** The decoder: one sample per byte pair, in order. */
  function Decode(bytes: seq<byte>): (samples: seq<int16>)
    requires |bytes| % 2 == 0
    ensures |samples| == |bytes| / 2
  {
    if |bytes| == 0 then []
    else [DecodeSample(bytes[0], bytes[1])] + Decode(bytes[2..])
  }

  /** Sample `i` of a decoding is read from bytes `2i` and `2i+1`. */
  lemma {:induction false} DecodeAt(bytes: seq<byte>, i: nat)
    requires |bytes| % 2 == 0 && i < |bytes| / 2
    ensures Decode(bytes)[i] == DecodeSample(bytes[2 * i], bytes[2 * i + 1])
    decreases i
  {
    if i > 0 {
      DecodeAt(bytes[2..], i - 1);
    }
  }

  /** Decoding the two bytes of a sample gives the sample back. */
  lemma SampleRoundTrip(s: int16)
    ensures DecodeSample(LowByte(s), HighByte(s)) == s
  {
  }

  /** Encoding the sample that a byte pair decodes to gives the pair back. */
  lemma BytePairRoundTrip(lo: byte, hi: byte)
    ensures LowByte(DecodeSample(lo, hi)) == lo
    ensures HighByte(DecodeSample(lo, hi)) == hi
  {
  }

  /** Round trip: the decoder recovers every encoded sample sequence exactly. */
  lemma {:induction false} DecodeEncode(data: seq<int16>)
    ensures Decode(Encode(data)) == data
  {
    if |data| > 0 {
      var e := Encode(data);
      assert e[2..] == Encode(data[1..]);
      DecodeEncode(data[1..]);
      SampleRoundTrip(data[0]);
      assert data == [data[0]] + data[1..];
    }
  }

  /** Round trip the other way: every even-length byte stream is the encoding of
      exactly one sample sequence, its decoding. */
  lemma {:induction false} EncodeDecode(bytes: seq<byte>)
    requires |bytes| % 2 == 0
    ensures Encode(Decode(bytes)) == bytes
  {
    if |bytes| > 0 {
      var d := Decode(bytes);
      assert d[1..] == Decode(bytes[2..]);
      EncodeDecode(bytes[2..]);
      BytePairRoundTrip(bytes[0], bytes[1]);
      assert bytes == [bytes[0], bytes[1]] + bytes[2..];
    }
  }

  /** Encoding distributes over concatenation, so how the samples were split
      into chunks does not change the byte stream. */
  lemma {:induction false} EncodeAppend(a: seq<int16>, b: seq<int16>)
    ensures Encode(a + b) == Encode(a) + Encode(b)
  {
    if |a| == 0 {
      assert a + b == b;
    } else {
      assert (a + b)[1..] == a[1..] + b;
      EncodeAppend(a[1..], b);
    }
  }
}
