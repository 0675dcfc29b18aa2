/**
 * Fixed-width unsigned integers and their little-endian byte encoding, the
 * layout the tag and header serialisers write through. The buffer's own byte
 * order is not fixed by the serialisers; little-endian is chosen here, and
 * every property proved below holds for any order that decodes what it
 * encodes.
 */
module Bytes {
  import opened Results

  /** One octet. */
  type Byte = b: int | 0 <= b < 0x100

  /** Unsigned 32-bit values. */
  type U32 = x: int | 0 <= x < 0x1_0000_0000

  /** Unsigned 64-bit values. */
  type U64 = x: int | 0 <= x < 0x1_0000_0000_0000_0000

  /** Signed 64-bit values. */
  type I64 = x: int | -0x8000_0000_0000_0000 <= x < 0x8000_0000_0000_0000

  /** The number of distinct values of n octets. */
  function Pow256(n: nat): (p: nat)
    ensures p > 0
  {
    if n == 0 then 1 else 256 * Pow256(n - 1)
  }

  /** The n-octet little-endian encoding of x. */
  function EncodeLE(x: nat, n: nat): (bs: seq<Byte>)
    requires x < Pow256(n)
    ensures |bs| == n
    ensures n > 0 ==> bs[0] == x % 256
  {
    if n == 0 then [] else [x % 256] + EncodeLE(x / 256, n - 1)
  }

  /** The value of a little-endian octet sequence. */
  function DecodeLE(bs: seq<Byte>): (x: nat)
    ensures x < Pow256(|bs|)
  {
    if |bs| == 0 then 0 else bs[0] + 256 * DecodeLE(bs[1..])
  }

  /** Decoding undoes encoding. */
  lemma {:induction false} DecodeEncode(x: nat, n: nat)
    requires x < Pow256(n)
    ensures DecodeLE(EncodeLE(x, n)) == x
    decreases n
  {
    if n > 0 {
      var bs := EncodeLE(x, n);
      assert bs[1..] == EncodeLE(x / 256, n - 1);
      DecodeEncode(x / 256, n - 1);
    }
  }

  /** Encoding undoes decoding: every octet sequence is the encoding of its value. */
  lemma {:induction false} EncodeDecode(bs: seq<Byte>)
    ensures EncodeLE(DecodeLE(bs), |bs|) == bs
    decreases |bs|
  {
    if |bs| > 0 {
      var x := DecodeLE(bs);
      assert x % 256 == bs[0] && x / 256 == DecodeLE(bs[1..]);
      EncodeDecode(bs[1..]);
    }
  }

  /** Different values below the width have different encodings. */
  lemma EncodeInjective(x: nat, y: nat, n: nat)
    requires x < Pow256(n) && y < Pow256(n)
    requires EncodeLE(x, n) == EncodeLE(y, n)
    ensures x == y
  {
    DecodeEncode(x, n);
    DecodeEncode(y, n);
  }

  /** A 32-bit value as four octets. */
  function WriteU32(x: U32): (bs: seq<Byte>)
    ensures |bs| == 4 && DecodeLE(bs) == x
  {
    DecodeEncode(x, 4);
    EncodeLE(x, 4)
  }

  /** A 64-bit value as eight octets. */
  function WriteU64(x: U64): (bs: seq<Byte>)
    ensures |bs| == 8 && DecodeLE(bs) == x
  {
    DecodeEncode(x, 8);
    EncodeLE(x, 8)
  }

  /** A value read off the front of a buffer, and what is left. */
  datatype Read<T> = Read(value: T, rest: seq<Byte>)

  /** Reads an n-octet value, or fails when fewer than n octets remain. */
  function ReadLE(bs: seq<Byte>, n: nat): (r: Option<Read<nat>>)
    ensures r.Some? <==> |bs| >= n
    ensures r.Some? ==> r.value.value < Pow256(n) && bs == EncodeLE(r.value.value, n) + r.value.rest
  {
    if |bs| < n then None
    else
      EncodeDecode(bs[..n]);
      assert bs == bs[..n] + bs[n..];
      Some(Read(DecodeLE(bs[..n]), bs[n..]))
  }

  /** Reading a written 32-bit value returns it and leaves the rest. */
  lemma ReadU32Write(x: U32, rest: seq<Byte>)
    ensures ReadU32(WriteU32(x) + rest) == Some(Read(x, rest))
  {
    ReadWrite(4);
  }

  /** Reads a 32-bit value. */
  function ReadU32(bs: seq<Byte>): (r: Option<Read<U32>>)
    ensures r.Some? <==> |bs| >= 4
    ensures r.Some? ==> bs == WriteU32(r.value.value) + r.value.rest
  {
    match ReadLE(bs, 4)
    case None => None
    case Some(rd) => Some(Read(rd.value as U32, rd.rest))
  }

  /** Reading a written 64-bit value returns it and leaves the rest. */
  lemma ReadU64Write(x: U64, rest: seq<Byte>)
    ensures ReadU64(WriteU64(x) + rest) == Some(Read(x, rest))
  {
    ReadWrite(8);
  }

  /** Reads a 64-bit value. */
  function ReadU64(bs: seq<Byte>): (r: Option<Read<U64>>)
    ensures r.Some? <==> |bs| >= 8
    ensures r.Some? ==> bs == WriteU64(r.value.value) + r.value.rest
  {
    match ReadLE(bs, 8)
    case None => None
    case Some(rd) => Some(Read(rd.value as U64, rd.rest))
  }

  /** Reading n octets back off an n-octet encoding returns the value and leaves the rest. */
  lemma ReadWrite(n: nat)
    ensures forall x: nat, rest :: x < Pow256(n) ==> ReadLE(EncodeLE(x, n) + rest, n) == Some(Read(x, rest))
  {
    forall x: nat, rest | x < Pow256(n)
      ensures ReadLE(EncodeLE(x, n) + rest, n) == Some(Read(x, rest))
    {
      var bs := EncodeLE(x, n) + rest;
      assert bs[..n] == EncodeLE(x, n) && bs[n..] == rest;
      DecodeEncode(x, n);
    }
  }

  /** The two's-complement reinterpretation of a signed 64-bit value as unsigned. */
  function I64ToU64(x: I64): (u: U64)
    ensures (u - x) % 0x1_0000_0000_0000_0000 == 0
  {
    if x < 0 then x + 0x1_0000_0000_0000_0000 else x
  }

  /** The two's-complement reinterpretation of an unsigned 64-bit value as signed. */
  function U64ToI64(u: U64): (x: I64)
    ensures (u - x) % 0x1_0000_0000_0000_0000 == 0
  {
    if u >= 0x8000_0000_0000_0000 then u - 0x1_0000_0000_0000_0000 else u
  }

  /** The reinterpretations are mutually inverse. */
  lemma SignedRoundTrip(x: I64, u: U64)
    ensures U64ToI64(I64ToU64(x)) == x
    ensures I64ToU64(U64ToI64(u)) == u
  {
  }
}
