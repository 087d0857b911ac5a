/** Incremental reassembly of frames from a byte stream, as a function.

    `xmsg_read` first completes the 24-byte header and then reads as many bytes as
    the header's length field still asks for; it never reads into the next frame,
    and it stops wherever the stream has nothing more to give. */
module Reassembly {
  import opened Frames

  /** How many bytes `xmsg_read` asks for when the buffer holds `x`. */
  function Need(x: seq<byte>): nat {
    if |x| < HDRLEN then HDRLEN - |x|
    else if LenOf(x) > |x| then LenOf(x) - |x| else 0
  }

  function Min(a: nat, b: nat): nat {
    if a <= b then a else b
  }

  /** How many of the bytes `avail` one call of `xmsg_read` moves into a buffer that holds `x`. */
  function Pull(x: seq<byte>, avail: seq<byte>): (k: nat)
    ensures k <= |avail|
  {
    var h := if |x| < HDRLEN then Min(Need(x), |avail|) else 0;
    var y := x + avail[..h];
    if |y| < HDRLEN then h else h + Min(Need(y), |avail| - h)
  }

  /** The buffer holds a whole frame: the length field equals the number of bytes held. */
  predicate Complete(x: seq<byte>) {
    |x| >= HDRLEN && LenOf(x) == |x|
  }

  /** The buffer holds at most one frame. */
  predicate Tight(x: seq<byte>) {
    |x| >= HDRLEN ==> |x| == HDRLEN || |x| <= LenOf(x)
  }

  /** One event at the receiving end: a call of `xmsg_read` while the first `k` of the
      outstanding bytes can be had, or the router finishing with a complete frame. */
  datatype Event = Read(k: nat) | Route

  /** `buf` is the reassembly buffer, `rest` the bytes not yet read, `done` the routed frames. */
  datatype Receiver = Receiver(buf: seq<byte>, rest: seq<byte>, done: seq<Frame>)

  function React(r: Receiver, e: Event): Receiver {
    match e
    case Read(k) =>
      var n := Pull(r.buf, r.rest[..Min(k, |r.rest|)]);
      Receiver(r.buf + r.rest[..n], r.rest[n..], r.done)
    case Route =>
      if Complete(r.buf) then Receiver([], r.rest, r.done + [Decode(r.buf)]) else r
  }

  function ReactAll(r: Receiver, es: seq<Event>): Receiver
    decreases es
  {
    if es == [] then r else ReactAll(React(r, es[0]), es[1..])
  }

  lemma PullIsTight(x: seq<byte>, avail: seq<byte>)
    requires Tight(x)
    ensures Tight(x + avail[..Pull(x, avail)])
    ensures avail != [] && Need(x) > 0 ==> Pull(x, avail) > 0
  {
    var h := if |x| < HDRLEN then Min(Need(x), |avail|) else 0;
    var y := x + avail[..h];
    var z := x + avail[..Pull(x, avail)];
    if |z| > HDRLEN && |x| < HDRLEN {
      assert z[..HDRLEN] == y;
    }
  }

  /** What has been routed, followed by the batch parse of what is outstanding. */
  function Outcome(r: Receiver): seq<Frame> {
    r.done + Parse(r.buf + r.rest)
  }

  predicate Orderly(r: Receiver) {
    FrameStream(r.buf + r.rest) && Tight(r.buf)
  }

  lemma Recut(x: seq<byte>, y: seq<byte>, n: nat)
    requires n <= |y|
    ensures (x + y[..n]) + y[n..] == x + y
  {
  }

  lemma ReadKeepsOutcome(r: Receiver, k: nat)
    requires Orderly(r)
    ensures Orderly(React(r, Read(k))) && Outcome(React(r, Read(k))) == Outcome(r)
  {
    var avail := r.rest[..Min(k, |r.rest|)];
    var n := Pull(r.buf, avail);
    PullIsTight(r.buf, avail);
    assert avail[..n] == r.rest[..n];
    Recut(r.buf, r.rest, n);
  }

  lemma RouteKeepsOutcome(r: Receiver)
    requires Orderly(r)
    ensures Orderly(React(r, Route)) && Outcome(React(r, Route)) == Outcome(r)
  {
    if Complete(r.buf) {
      TakeFirst(r.buf, r.rest);
      assert [] + r.rest == r.rest;
      assert r.done + [Decode(r.buf)] + Parse(r.rest) == r.done + ([Decode(r.buf)] + Parse(r.rest));
    }
  }

  /** For every frame stream and every way of cutting its arrival into reads -- reads
      that yield nothing, routing attempts on an incomplete frame, and retries of a
      frame that was not routed included -- the frames routed so far followed by the
      batch parse of what is outstanding are the batch parse of the whole stream. */
  lemma {:induction false} ReassemblyRefinesParse(r: Receiver, es: seq<Event>)
    requires Orderly(r)
    ensures Orderly(ReactAll(r, es)) && Outcome(ReactAll(r, es)) == Outcome(r)
    decreases es
  {
    if es != [] {
      match es[0] {
        case Read(k) => ReadKeepsOutcome(r, k);
        case Route => RouteKeepsOutcome(r);
      }
      ReassemblyRefinesParse(React(r, es[0]), es[1..]);
    }
  }

  /** What the buffer holds of a frame stream never exceeds its first frame, and when a
      frame is outstanding, either it is complete or more bytes are both wanted and there. */
  lemma ReassemblyNeverSticks(r: Receiver)
    requires Orderly(r)
    requires r.buf + r.rest != []
    ensures Complete(r.buf) || (Need(r.buf) > 0 && r.rest != [])
  {
    var b := r.buf + r.rest;
    var fs := Parse(b);
    assert fs != [];
    assert LenOf(b) >= HDRLEN && |b| >= LenOf(b);
    if |r.buf| >= HDRLEN {
      assert LenOf(r.buf) == LenOf(b);
    }
  }

  function Cycles(n: nat, k: nat): seq<Event> {
    if n == 0 then [] else [Read(k), Route] + Cycles(n - 1, k)
  }

  lemma OneCycle(f: Frame, rest: seq<byte>, done: seq<Frame>, k: nat)
    requires Sendable(f) && k >= |Encode(f) + rest|
    ensures React(React(Receiver([], Encode(f) + rest, done), Read(k)), Route) == Receiver([], rest, done + [f])
  {
    EncodeIsFaithful(f);
    var x := Encode(f);
    var all := x + rest;
    assert all[..Min(k, |all|)] == all;
    assert Pull([], all) == |x| by {
      assert ([] + all[..HDRLEN])[..20] == x[..20];
    }
    assert [] + all[..|x|] == x;
    assert all[|x|..] == rest;
  }

  lemma ReactTwice(r: Receiver, a: Event, b: Event, es: seq<Event>)
    ensures ReactAll(r, [a, b] + es) == ReactAll(React(React(r, a), b), es)
  {
    assert ([a, b] + es)[1..] == [b] + es;
    assert ([b] + es)[1..] == es;
  }

  /** Offered all its bytes, and routed after each read as the event loop does, a stream yields all its frames. */
  lemma {:induction false} ReassemblyIsComplete(fs: seq<Frame>, done: seq<Frame>, k: nat)
    requires forall f :: f in fs ==> Sendable(f)
    requires k >= |EncodeAll(fs)|
    ensures ReactAll(Receiver([], EncodeAll(fs), done), Cycles(|fs|, k)) == Receiver([], [], done + fs)
    decreases fs
  {
    if fs != [] {
      OneCycle(fs[0], EncodeAll(fs[1..]), done, k);
      ReactTwice(Receiver([], EncodeAll(fs), done), Read(k), Route, Cycles(|fs| - 1, k));
      ReassemblyIsComplete(fs[1..], done + [fs[0]], k);
      assert done + [fs[0]] + fs[1..] == done + fs;
    }
  }
}
