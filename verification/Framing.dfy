// Binary stream frames: a 16-byte big-endian stream id followed by the payload.
module Framing {
  import opened Wrappers

  newtype byte = x: int | 0 <= x < 0x100

  const MAX_FRAME_BYTES: nat := 1024 * 1024
  const TCP_CHUNK_SIZE: nat := 64 * 1024
  const ID_BYTES: nat := 16

  // A `u128`.
  type StreamId = x: int | 0 <= x < 0x1_0000_0000_0000_0000_0000_0000_0000_0000

  datatype ProtocolError = FrameTooLarge | InvalidMessage

  function Pow256(n: nat): nat {
    if n == 0 then 1 else 0x100 * Pow256(n - 1)
  }

  // Most significant byte first.
  function ToBigEndian(v: nat, width: nat): (s: seq<byte>)
    ensures |s| == width
  {
    if width == 0 then [] else ToBigEndian(v / 0x100, width - 1) + [(v % 0x100) as byte]
  }

  function FromBigEndian(s: seq<byte>): nat {
    if s == [] then 0 else 0x100 * FromBigEndian(s[..|s| - 1]) + s[|s| - 1] as nat
  }

  lemma {:induction false} FromToBigEndian(v: nat, width: nat)
    requires v < Pow256(width)
    ensures FromBigEndian(ToBigEndian(v, width)) == v
  {
    if width > 0 {
      FromToBigEndian(v / 0x100, width - 1);
      assert ToBigEndian(v, width)[..width - 1] == ToBigEndian(v / 0x100, width - 1);
    }
  }

  lemma {:induction false} ToFromBigEndian(s: seq<byte>)
    ensures FromBigEndian(s) < Pow256(|s|)
    ensures ToBigEndian(FromBigEndian(s), |s|) == s
  {
    if s != [] {
      var front := s[..|s| - 1];
      ToFromBigEndian(front);
      assert s == front + [s[|s| - 1]];
    }
  }

  lemma IdFitsSixteenBytes()
    ensures Pow256(ID_BYTES) == 0x1_0000_0000_0000_0000_0000_0000_0000_0000
  {
    assert Pow256(4) == 0x1_0000_0000;
    assert Pow256(8) == 0x1_0000_0000 * Pow256(4);
    assert Pow256(12) == 0x1_0000_0000 * Pow256(8);
    assert Pow256(16) == 0x1_0000_0000 * Pow256(12);
  }

  // Most significant byte first: the byte at i counts the 256s to the power of
  // what follows it.
  lemma {:induction false} ByteOrder(v: nat, width: nat, i: nat)
    requires i < width
    ensures Pow256(width - 1 - i) > 0
    ensures ToBigEndian(v, width)[i] as nat == v / Pow256(width - 1 - i) % 0x100
  {
    PowPositive(width - 1 - i);
    if i < width - 1 {
      ByteOrder(v / 0x100, width - 1, i);
      DivideTwice(v, Pow256(width - 2 - i));
    }
  }

  lemma {:induction false} PowPositive(n: nat)
    ensures Pow256(n) > 0
  {
    if n > 0 {
      PowPositive(n - 1);
    }
  }

  lemma DivideTwice(v: nat, p: nat)
    requires p > 0
    ensures v / 0x100 / p == v / (0x100 * p)
  {
    var q, r := v / 0x100, v % 0x100;
    var a, b := q / p, q % p;
    assert v == 0x100 * q + r && q == p * a + b;
    Regroup(v, q, r, a, b, p);
    QuotientIs(v, 0x100 * p, a, 0x100 * b + r);
  }

  lemma Regroup(v: nat, q: nat, r: nat, a: nat, b: nat, p: nat)
    requires v == 0x100 * q + r && q == p * a + b
    ensures v == (0x100 * p) * a + (0x100 * b + r)
  {
  }

  lemma QuotientIs(v: nat, d: nat, q: nat, r: nat)
    requires d > 0 && v == d * q + r && r < d
    ensures v / d == q
  {
    var q', r' := v / d, v % d;
    assert v == d * q' + r' && r' < d;
    if q' < q {
      LargerProduct(d, q', q);
    } else if q < q' {
      LargerProduct(d, q, q');
    }
  }

  lemma LargerProduct(d: nat, a: nat, b: nat)
    requires a < b
    ensures d * b >= d * a + d
  {
    var k := b - a;
    assert b == a + k;
    Distribute(d, a, k);
    AtLeast(d, k);
  }

  lemma Distribute(d: nat, a: nat, k: nat)
    ensures d * (a + k) == d * a + d * k
  {
  }

  lemma AtLeast(d: nat, k: nat)
    requires k > 0
    ensures d * k >= d
  {
  }

  method EncodeStreamData(streamId: StreamId, data: seq<byte>) returns (r: Result<seq<byte>, ProtocolError>)
    ensures r.Success? <==> |data| + ID_BYTES <= MAX_FRAME_BYTES
    ensures r.Failure? ==> r.error == FrameTooLarge
    ensures r.Success? ==> Parse(r.value) == Success((streamId, data))
  {
    if |data| + ID_BYTES > MAX_FRAME_BYTES {
      return Failure(FrameTooLarge);
    }
    var frame: seq<byte> := [];
    frame := frame + ToBigEndian(streamId, ID_BYTES);
    frame := frame + data;
    ParseOfFrame(streamId, data);
    assert frame == ToBigEndian(streamId, ID_BYTES) + data;
    return Success(frame);
  }

  method DecodeStreamData(frame: seq<byte>) returns (r: Result<(StreamId, seq<byte>), ProtocolError>)
    ensures r == Parse(frame)
    ensures r.Failure? <==> |frame| < ID_BYTES || |frame| > MAX_FRAME_BYTES
    ensures r.Success? ==> frame == ToBigEndian(r.value.0, ID_BYTES) + r.value.1
  {
    if |frame| < ID_BYTES || |frame| > MAX_FRAME_BYTES {
      return Failure(InvalidMessage);
    }
    var id := frame[..ID_BYTES];
    IdFitsSixteenBytes();
    ToFromBigEndian(id);
    assert frame == id + frame[ID_BYTES..];
    return Success((FromBigEndian(id), frame[ID_BYTES..]));
  }

  function Parse(frame: seq<byte>): Result<(StreamId, seq<byte>), ProtocolError> {
    if |frame| < ID_BYTES || |frame| > MAX_FRAME_BYTES then Failure(InvalidMessage)
    else
      IdFitsSixteenBytes();
      ToFromBigEndian(frame[..ID_BYTES]);
      Success((FromBigEndian(frame[..ID_BYTES]), frame[ID_BYTES..]))
  }

  lemma ParseOfFrame(id: StreamId, data: seq<byte>)
    requires |data| + ID_BYTES <= MAX_FRAME_BYTES
    ensures Parse(ToBigEndian(id, ID_BYTES) + data) == Success((id, data))
  {
    var frame := ToBigEndian(id, ID_BYTES) + data;
    IdFitsSixteenBytes();
    FromToBigEndian(id, ID_BYTES);
    assert frame[..ID_BYTES] == ToBigEndian(id, ID_BYTES);
  }

  // Every chunk a bridge reads makes a frame, and the frame parses back.
  lemma ChunkAlwaysFrames(id: StreamId, chunk: seq<byte>)
    requires |chunk| <= TCP_CHUNK_SIZE
    ensures Parse(ToBigEndian(id, ID_BYTES) + chunk) == Success((id, chunk))
  {
    ParseOfFrame(id, chunk);
  }

  // Every frame that parses is the encoding of what it parses to, so no two
  // frames carry the same (id, payload).
  lemma FrameOfParse(frame: seq<byte>)
    requires Parse(frame).Success?
    ensures var (id, data) := Parse(frame).value;
            frame == ToBigEndian(id, ID_BYTES) + data && |data| + ID_BYTES <= MAX_FRAME_BYTES
  {
    ToFromBigEndian(frame[..ID_BYTES]);
    assert frame == frame[..ID_BYTES] + frame[ID_BYTES..];
  }
}
