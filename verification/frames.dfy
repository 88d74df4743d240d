// The Connect streaming envelope: one flags byte, a 4-byte big-endian length,
// then the payload.  The length is handled as Go's uint32, wrap-around included.
module Frames {
  import opened Basics

  const TWO32: int := 0x1_0000_0000

  function U32(n: int): (r: int)
    ensures 0 <= r < TWO32
  {
    n % TWO32
  }

  function Pow256(k: nat): (p: int)
    ensures p > 0
  {
    if k == 0 then 1 else 256 * Pow256(k - 1)
  }

  /** The low k bytes of n, most significant first. */
  function BigEndian(n: nat, k: nat): (b: Bytes)
    ensures |b| == k
  {
    if k == 0 then [] else BigEndian(n / 256, k - 1) + [(n % 256) as byte]
  }

  function FromBigEndian(b: Bytes): (n: nat)
    ensures n < Pow256(|b|)
  {
    if b == [] then 0 else FromBigEndian(b[..|b| - 1]) * 256 + b[|b| - 1] as int
  }

  lemma {:induction false} BigEndianRoundTrip(n: nat, k: nat)
    requires n < Pow256(k)
    ensures FromBigEndian(BigEndian(n, k)) == n
  {
    if k > 0 {
      BigEndianRoundTrip(n / 256, k - 1);
      var b := BigEndian(n, k);
      assert b[..k - 1] == BigEndian(n / 256, k - 1);
    }
  }

  lemma FourBytes()
    ensures Pow256(4) == TWO32
  {
    assert Pow256(2) == 65536;
    assert Pow256(4) == 256 * (256 * Pow256(2));
  }

  /** The length field holds only the low 32 bits of the payload length. */
  function FrameConnectMessage(data: Bytes, flags: byte): (frame: Bytes)
    ensures |frame| == 5 + |data|
  {
    [flags] + BigEndian(U32(|data|), 4) + data
  }

  datatype Extraction =
    | NeedMore
    | Extracted(flags: byte, payload: Bytes, rest: Bytes)
    | Panic  // Go's slice-bounds panic

  function DeclaredLength(b: Bytes): (r: int)
    requires |b| >= 5
    ensures 0 <= r < TWO32
  {
    FourBytes();
    FromBigEndian(b[1..5])
  }

  /** extractFrame as written: the size test and the slice end are uint32 sums. */
  function ExtractFrame(b: Bytes): (r: Extraction)
    ensures r.Extracted? ==> |r.rest| < |b|
  {
    if |b| < 5 then NeedMore
    else
      var end := U32(5 + DeclaredLength(b));
      if U32(|b|) < end then NeedMore
      else if end < 5 then Panic
      else Extracted(b[0], b[5..end], b[end..])
  }

  /** The envelope rule with unbounded arithmetic. */
  function UnboundedExtract(b: Bytes): (r: Extraction)
    ensures r.Extracted? ==> |r.rest| < |b|
  {
    if |b| < 5 then NeedMore
    else
      var end := 5 + DeclaredLength(b);
      if |b| < end then NeedMore else Extracted(b[0], b[5..end], b[end..])
  }

  lemma HeaderOfFrame(data: Bytes, flags: byte, rest: Bytes)
    ensures var b := FrameConnectMessage(data, flags) + rest;
            b[0] == flags && DeclaredLength(b) == U32(|data|) && b[5..] == data + rest
  {
    var b := FrameConnectMessage(data, flags) + rest;
    assert b[1..5] == BigEndian(U32(|data|), 4);
    FourBytes();
    BigEndianRoundTrip(U32(|data|), 4);
  }

  lemma ExtractsDeclared(b: Bytes, data: Bytes, rest: Bytes)
    requires 5 <= |b| < TWO32 && b[5..] == data + rest && DeclaredLength(b) == |data|
    ensures ExtractFrame(b) == Extracted(b[0], data, rest)
  {
    assert |b| == 5 + |data + rest|;
    assert b[5..5 + |data|] == b[5..][..|data|] == data;
    assert b[5 + |data|..] == b[5..][|data|..] == rest;
  }

  lemma {:induction false} FromTwo(b: Bytes)
    requires |b| == 2
    ensures FromBigEndian(b) == b[0] as int * 256 + b[1] as int
  {
    assert b[..1][..0] == [] && b[..1][0] == b[0];
    assert FromBigEndian(b[..1]) == FromBigEndian([]) * 256 + b[0] as int;
  }

  lemma {:induction false} FromFour(b: Bytes)
    requires |b| == 4
    ensures FromBigEndian(b) == b[0] as int * 0x100_0000 + b[1] as int * 0x1_0000 + b[2] as int * 0x100 + b[3] as int
  {
    FromTwo(b[..3][..2]);
    assert FromBigEndian(b[..3]) == FromBigEndian(b[..3][..2]) * 256 + b[2] as int;
  }

  /** What the reader takes a header to say: the second byte counts most, the fifth least. */
  lemma HeaderBytes(b: Bytes)
    requires |b| >= 5
    ensures DeclaredLength(b) ==
            b[1] as int * 0x100_0000 + b[2] as int * 0x1_0000 + b[3] as int * 0x100 + b[4] as int
  {
    FromFour(b[1..5]);
  }

  /** What the writer puts on the wire: the flags, the length in four bytes, most significant first, the payload. */
  lemma EnvelopeBytes(data: Bytes, flags: byte)
    requires |data| < 0x1_0000_0000
    ensures var f := FrameConnectMessage(data, flags);
      && |f| == 5 + |data| && f[0] == flags && f[5..] == data
      && |data| == f[1] as int * 0x100_0000 + f[2] as int * 0x1_0000 + f[3] as int * 0x100 + f[4] as int
  {
    var f := FrameConnectMessage(data, flags);
    HeaderOfFrame(data, flags, []);
    assert f + [] == f && data + [] == data;
    HeaderBytes(f);
  }

  /** Encoding then extracting gives the message back and leaves what followed it. */
  lemma FrameRoundTrip(data: Bytes, flags: byte, rest: Bytes)
    requires 5 + |data| + |rest| < TWO32
    ensures ExtractFrame(FrameConnectMessage(data, flags) + rest) == Extracted(flags, data, rest)
  {
    HeaderOfFrame(data, flags, rest);
    ExtractsDeclared(FrameConnectMessage(data, flags) + rest, data, rest);
  }

  /** The same for a reader with unbounded arithmetic, for every message a frame can carry. */
  lemma FrameRoundTripUnbounded(data: Bytes, flags: byte, rest: Bytes)
    requires |data| < TWO32
    ensures UnboundedExtract(FrameConnectMessage(data, flags) + rest) == Extracted(flags, data, rest)
  {
    HeaderOfFrame(data, flags, rest);
    var b := FrameConnectMessage(data, flags) + rest;
    assert b[5..5 + |data|] == b[5..][..|data|] == data;
    assert b[5 + |data|..] == b[5..][|data|..] == rest;
  }

  lemma ShortBufferNeedsMore(b: Bytes)
    requires |b| < 5 || (DeclaredLength(b) <= TWO32 - 6 && |b| < 5 + DeclaredLength(b))
    ensures ExtractFrame(b) == NeedMore && UnboundedExtract(b) == NeedMore
  {
  }

  /** A frame cut short yields nothing; both readers wait for the rest of it. */
  lemma ProperPrefixNeedsMore(data: Bytes, flags: byte, k: nat)
    requires |data| <= TWO32 - 6 && k < 5 + |data|
    ensures ExtractFrame(FrameConnectMessage(data, flags)[..k]) == NeedMore
    ensures UnboundedExtract(FrameConnectMessage(data, flags)[..k]) == NeedMore
  {
    var f := FrameConnectMessage(data, flags);
    if k >= 5 {
      HeaderOfFrame(data, flags, []);
      assert f + [] == f;
      assert f[..k][1..5] == f[1..5];
    }
    ShortBufferNeedsMore(f[..k]);
  }

  /** Below 2^32 buffered bytes, the 32-bit test is right exactly up to 2^32 - 6. */
  lemma AgreesWithUnboundedExactly(b: Bytes)
    requires 5 <= |b| < TWO32
    ensures ExtractFrame(b) == UnboundedExtract(b) <==> DeclaredLength(b) <= TWO32 - 6
    ensures DeclaredLength(b) > TWO32 - 6 ==> ExtractFrame(b) == Panic && UnboundedExtract(b) == NeedMore
  {
  }

  /** At 2^32 buffered bytes the bound is real: a complete frame is left unseen. */
  lemma WrappedBufferLength(b: Bytes)
    requires |b| == TWO32 && DeclaredLength(b) <= TWO32 - 6
    ensures ExtractFrame(b) == NeedMore && UnboundedExtract(b).Extracted?
  {
  }

  /** Messages framed one after another, as both sides put them on the wire. */
  function Framed(payloads: seq<Bytes>): Bytes {
    if payloads == [] then [] else FrameConnectMessage(payloads[0], 0) + Framed(payloads[1..])
  }

  /** bytes.Buffer as the read loop uses it. */
  class Buffer {
    var data: Bytes

    constructor ()
      ensures data == []
    {
      data := [];
    }

    method Write(chunk: Bytes)
      modifies this
      ensures data == old(data) + chunk
    {
      data := data + chunk;
    }

    /** Consumes the frame from the front, or nothing at all. */
    method Extract() returns (r: Extraction)
      modifies this
      ensures r == ExtractFrame(old(data))
      ensures data == if r.Extracted? then r.rest else old(data)
    {
      if |data| < 5 {
        return NeedMore;
      }
      var flags := data[0];
      var msgLen := DeclaredLength(data);
      var end := U32(5 + msgLen);
      if U32(|data|) < end {
        return NeedMore;
      }
      if end < 5 {
        return Panic;
      }
      r := Extracted(flags, data[5..end], data[end..]);
      data := data[end..];
    }
  }
}
