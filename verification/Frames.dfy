/** The wire format of the bus: 24-byte headers followed by a payload.

    A frame is what `messages::msgheader` and the bytes after it describe: the
    envelope id, a 16-bit length that counts header and payload, the version, and
    the opcode with its flags.  `Parse` is the batch reading of a byte stream;
    everything that reads incrementally is proved against it. */
module Frames {

  newtype byte = i: int | 0 <= i < 256

  const HDRLEN: nat := 24
  /** `UINT16_MAX - sizeof(msgheader)`: the most that one read hands to one frame. */
  const MAX_PAYLOAD: nat := 65511

  const DATA: byte := 0
  const STOP: byte := 1
  const INIT: byte := 128
  const ABORT: byte := 64

  type Uuid = u: seq<byte> | |u| == 16 witness seq(16, i => 0 as byte)

  datatype Frame = Frame(eid: Uuid, op: byte, flags: byte, payload: seq<byte>)

  /** The six node bytes, the only ones `uuidcmp_node` looks at. */
  function Node(u: Uuid): seq<byte> {
    u[10..]
  }

  predicate IsAbort(f: Frame) {
    f.flags as int / 64 % 2 == 1
  }

  predicate IsInit(f: Frame) {
    f.flags as int / 128 == 1
  }

  predicate IsStop(f: Frame) {
    f.op == STOP
  }

  /** A header-only STOP with the ABORT flag, as every handler builds it. */
  function AbortFrame(u: Uuid): Frame {
    Frame(u, STOP, ABORT, [])
  }

  predicate Sendable(f: Frame) {
    |f.payload| <= MAX_PAYLOAD
  }

  /** The header field `len.length`: the byte count cast to 16 bits, low byte first. */
  function LengthField(count: nat): seq<byte> {
    var w := count % 65536;
    [(w % 256) as byte, (w / 256) as byte]
  }

  function LenOf(b: seq<byte>): nat
    requires |b| >= 20
  {
    b[18] as nat + 256 * b[19] as nat
  }

  function Encode(f: Frame): (b: seq<byte>)
    ensures |b| == HDRLEN + |f.payload|
  {
    f.eid + [1, 0] + LengthField(HDRLEN + |f.payload|) + [0, 0] + [f.op, f.flags] + f.payload
  }

  function Decode(b: seq<byte>): Frame
    requires |b| >= HDRLEN
  {
    Frame(b[..16], b[22], b[23], b[HDRLEN..])
  }

  function EncodeAll(fs: seq<Frame>): seq<byte> {
    if fs == [] then [] else Encode(fs[0]) + EncodeAll(fs[1..])
  }

  /** Batch parsing: the complete frames at the front of `b`. */
  function Parse(b: seq<byte>): seq<Frame>
    decreases |b|
  {
    if |b| < HDRLEN || LenOf(b) < HDRLEN || |b| < LenOf(b) then []
    else [Decode(b[..LenOf(b)])] + Parse(b[LenOf(b)..])
  }

  /** `b` is a concatenation of complete frames and nothing else. */
  predicate FrameStream(b: seq<byte>) {
    EncodeAll(Parse(b)) == b
  }

  /** A sendable frame's length field does not wrap, and the header reads back. */
  lemma EncodeIsFaithful(f: Frame)
    requires Sendable(f)
    ensures LenOf(Encode(f)) == |Encode(f)|
    ensures Decode(Encode(f)) == f
  {
    var b := Encode(f);
    assert b[..16] == f.eid;
    assert b[HDRLEN..] == f.payload;
  }

  /** The cast wraps as soon as the payload is one byte longer than the limit, so the limit is exact. */
  lemma LengthFieldIsExact(f: Frame)
    requires |f.payload| < 65536
    ensures LenOf(Encode(f)) == |Encode(f)| <==> Sendable(f)
  {
    var b := Encode(f);
    assert b[18] == LengthField(HDRLEN + |f.payload|)[0];
    assert b[19] == LengthField(HDRLEN + |f.payload|)[1];
  }

  lemma ParseFirst(f: Frame, rest: seq<byte>)
    requires Sendable(f)
    ensures Parse(Encode(f) + rest) == [f] + Parse(rest)
  {
    EncodeIsFaithful(f);
    var b := Encode(f) + rest;
    assert LenOf(b) == |Encode(f)|;
    assert b[..LenOf(b)] == Encode(f);
    assert b[LenOf(b)..] == rest;
  }

  lemma {:induction false} EncodeAllAppend(fs: seq<Frame>, gs: seq<Frame>)
    ensures EncodeAll(fs + gs) == EncodeAll(fs) + EncodeAll(gs)
  {
    if fs == [] {
      assert fs + gs == gs;
    } else {
      assert (fs + gs)[1..] == fs[1..] + gs;
      EncodeAllAppend(fs[1..], gs);
    }
  }

  /** Batch parsing undoes encoding, whatever follows. */
  lemma {:induction false} ParseEncodeAll(fs: seq<Frame>, rest: seq<byte>)
    requires forall f :: f in fs ==> Sendable(f)
    ensures Parse(EncodeAll(fs) + rest) == fs + Parse(rest)
  {
    hide Parse, Encode, Sendable;
    if fs == [] {
      assert EncodeAll(fs) + rest == rest;
    } else {
      ParseEncodeAll(fs[1..], rest);
      ParseFirst(fs[0], EncodeAll(fs[1..]) + rest);
      assert EncodeAll(fs) + rest == Encode(fs[0]) + (EncodeAll(fs[1..]) + rest);
      assert fs + Parse(rest) == [fs[0]] + (fs[1..] + Parse(rest));
    }
  }

  lemma {:induction false} ParsedFramesAreSendable(b: seq<byte>)
    ensures forall f :: f in Parse(b) ==> Sendable(f)
    decreases |b|
  {
    if |b| < HDRLEN || LenOf(b) < HDRLEN || |b| < LenOf(b) {
    } else {
      ParsedFramesAreSendable(b[LenOf(b)..]);
    }
  }

  /** Appending frames to a frame stream appends them to its parse. */
  lemma AppendFrames(b: seq<byte>, fs: seq<Frame>)
    requires FrameStream(b)
    requires forall f :: f in fs ==> Sendable(f)
    ensures Parse(b + EncodeAll(fs)) == Parse(b) + fs
    ensures FrameStream(b + EncodeAll(fs))
  {
    ParsedFramesAreSendable(b);
    EncodeAllAppend(Parse(b), fs);
    ParseEncodeAll(Parse(b) + fs, []);
    assert EncodeAll(Parse(b) + fs) + [] == b + EncodeAll(fs);
  }

  /** A buffer that holds exactly the bytes its own length field asks for holds the first frame. */
  lemma TakeFirst(x: seq<byte>, rest: seq<byte>)
    requires |x| >= HDRLEN && LenOf(x) == |x|
    requires FrameStream(x + rest)
    ensures Parse(x + rest) == [Decode(x)] + Parse(rest)
    ensures FrameStream(rest)
    ensures Sendable(Decode(x))
  {
    var b := x + rest;
    assert LenOf(b) == |x|;
    assert b[..|x|] == x && b[|x|..] == rest;
    var f := Decode(x);
    assert Parse(b)[1..] == Parse(rest);
    assert EncodeAll(Parse(b)) == Encode(f) + EncodeAll(Parse(rest));
    assert |Encode(f)| == |x|;
    assert b[|x|..] == EncodeAll(Parse(rest));
  }
}
