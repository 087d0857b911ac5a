/** The reassembly buffer as it runs: a growable array with a put and a get position,
    and the reader that fills it.  `XmsgRead` is proved against `Reassembly.Pull`. */
module XmsgBuffer {
  import opened Frames
  import opened Reassembly

  const BUFINC: nat := 4096

  /** An input stream: `Readsome` yields at most `n` bytes, and none whenever the socket has none to give. */
  class Source {
    var data: seq<byte>

    constructor (bytes: seq<byte>)
      ensures data == bytes
    {
      data := bytes;
    }

    method Readsome(n: nat) returns (r: seq<byte>)
      modifies this
      ensures r + data == old(data) && |r| <= n
    {
      var k: nat :| k <= n && k <= |data|;
      r := data[..k];
      data := data[k..];
    }
  }

  /** `stream_copy`: fills one frame's worth from a stream, in pieces of at most 256 bytes. */
  method StreamCopy(src: Source) returns (chunk: seq<byte>)
    modifies src
    ensures chunk + src.data == old(src.data) && |chunk| <= MAX_PAYLOAD
  {
    chunk := [];
    var maxlen := MAX_PAYLOAD;
    var got := src.Readsome(Min(maxlen, 256));
    while got != []
      invariant |got| <= maxlen && |chunk| + maxlen == MAX_PAYLOAD
      invariant chunk + got + src.data == old(src.data)
      decreases |src.data| + |got|
    {
      chunk := chunk + got;
      maxlen := maxlen - |got|;
      ghost var was := src.data;
      got := src.Readsome(Min(maxlen, 256));
      assert chunk + was == chunk + got + src.data;
    }
  }

  /** A call that took `avail` in the two phases of `xmsg_read` took all that it was offered. */
  lemma PullAll(x: seq<byte>, avail: seq<byte>)
    requires |x| < HDRLEN && |x| + |avail| > HDRLEN ==>
      |x| + |avail| <= LenOf(x + avail)
    requires |x| >= HDRLEN ==> |avail| <= Need(x)
    ensures Pull(x, avail) == |avail|
  {
    var h := if |x| < HDRLEN then Min(Need(x), |avail|) else 0;
    var y := x + avail[..h];
    if |x| < HDRLEN && |x| + |avail| > HDRLEN {
      assert (x + avail)[..HDRLEN] == y;
    }
  }

  lemma EmptyIsTight()
    ensures Tight([])
  {
  }

  /** What the two phases took together. */
  lemma ReadResult(x: seq<byte>, header: seq<byte>, body: seq<byte>)
    requires Tight(x)
    requires if |x| < HDRLEN then |x| + |header| <= HDRLEN else header == []
    requires if |x| + |header| < HDRLEN then body == [] else |body| <= Need(x + header)
    ensures |header + body| == Pull(x, header + body) && Tight(x + (header + body))
  {
    var y, took := x + header, header + body;
    assert x + took == y + body;
    if |y| >= HDRLEN {
      assert LenOf(y + body) == LenOf(y);
    }
    assert x + [] == x;
    PullAll(x, took);
    PullIsTight(x, took);
    assert took[..|took|] == took;
  }

  class XmsgBuf {
    var buf: array<byte>
    var p: nat
    var g: nat
    var eof: bool

    ghost predicate Valid()
      reads this
    {
      BUFINC <= buf.Length && g <= p <= buf.Length
    }

    /** What has been put. */
    ghost function Contents(): seq<byte>
      requires Valid()
      reads this, buf
    {
      buf[..p]
    }

    constructor ()
      ensures Valid() && fresh(buf) && Contents() == [] && g == 0 && !eof
    {
      buf := new byte[BUFINC];
      p, g, eof := 0, 0, false;
    }

    /** `len()`: the length field, once it has arrived. */
    method Length() returns (known: bool, length: nat)
      requires Valid()
      ensures known <==> p >= 20
      ensures known ==> length == LenOf(Contents())
    {
      known, length := p >= 20, 0;
      if known {
        length := buf[18] as nat + 256 * buf[19] as nat;
      }
    }

    /** `overflow`: refuses to run past the end of the frame, grows by 4 KiB otherwise. */
    method Overflow(ch: byte) returns (ok: bool)
      requires Valid() && p == buf.Length
      modifies this, buf
      ensures Valid() && (buf == old(buf) || fresh(buf)) && g == old(g) && eof == old(eof)
      ensures ok <==> LenOf(old(Contents())) != old(p)
      ensures Contents() == if ok then old(Contents()) + [ch] else old(Contents())
    {
      var known, length := Length();
      if length == p {
        return false;
      }
      var more := new byte[buf.Length + BUFINC];
      forall i | 0 <= i < buf.Length {
        more[i] := buf[i];
      }
      assert more[..p] == buf[..p];
      buf := more;
      buf[p] := ch;
      p := p + 1;
      assert buf[..p] == old(buf[..p]) + [ch];
      ok := true;
    }

    /** `write`, one character after another; it stops short only at the end of the frame. */
    method Write(data: seq<byte>) returns (n: nat)
      requires Valid()
      modifies this, buf
      ensures Valid() && (buf == old(buf) || fresh(buf)) && g == old(g) && eof == old(eof)
      ensures n <= |data| && Contents() == old(Contents()) + data[..n]
      ensures n < |data| ==> p >= BUFINC && LenOf(Contents()) == p
    {
      n := 0;
      while n < |data|
        invariant Valid() && (buf == old(buf) || fresh(buf)) && g == old(g) && eof == old(eof)
        invariant n <= |data| && Contents() == old(Contents()) + data[..n]
      {
        ghost var before := Contents();
        if p < buf.Length {
          buf[p] := data[n];
          p := p + 1;
          assert buf[..p] == before + [data[n]];
        } else {
          var ok := Overflow(data[n]);
          if !ok {
            return;
          }
        }
        assert Contents() == before + [data[n]];
        assert data[..n + 1] == data[..n] + [data[n]];
        n := n + 1;
      }
    }

    /** `seekp`: refused beyond the end of the buffer; the get position never stays ahead of it. */
    method SeekP(pos: nat) returns (ok: bool)
      requires Valid()
      modifies this`p, this`g
      ensures Valid() && ok == (pos <= buf.Length)
      ensures if ok then p == pos && g == (if old(g) < pos then old(g) else pos) else p == old(p) && g == old(g)
    {
      ok := pos <= buf.Length;
      if ok {
        p := pos;
        g := if g < p then g else p;
      }
    }

    /** `seekg`: refused beyond the put position; clears the end-of-file mark. */
    method SeekG(pos: nat) returns (ok: bool)
      requires Valid()
      modifies this`g, this`eof
      ensures Valid() && ok == (pos <= p) && !eof && g == if ok then pos else old(g)
    {
      eof := false;
      ok := pos <= p;
      if ok {
        g := pos;
      }
    }

    /** `showmanyc`: -1 once the whole frame has been read. */
    method ShowManyC() returns (n: int)
      requires Valid()
      ensures n == if p >= 20 && LenOf(Contents()) == g then -1 else p - g
    {
      var known, length := Length();
      if known && length == g {
        return -1;
      }
      n := p - g;
    }

    /** The first loop of `xmsg_read`. */
    method ReadHeader(src: Source) returns (ghost took: seq<byte>)
      requires Valid()
      modifies this, buf, src
      ensures Valid() && (buf == old(buf) || fresh(buf)) && eof == old(eof)
      ensures took + src.data == old(src.data) && Contents() == old(Contents()) + took
      ensures if old(p) < HDRLEN then p <= HDRLEN else took == []
    {
      took := [];
      while p < HDRLEN
        invariant Valid() && (buf == old(buf) || fresh(buf)) && eof == old(eof)
        invariant took + src.data == old(src.data) && Contents() == old(Contents()) + took
        invariant if old(p) < HDRLEN then p <= HDRLEN else took == []
        decreases HDRLEN - p
      {
        var r := src.Readsome(HDRLEN - p);
        if |r| == 0 {
          return;
        }
        var n := Write(r);
        took := took + r;
      }
    }

    /** The second loop of `xmsg_read`. */
    method ReadBody(src: Source) returns (ghost took: seq<byte>)
      requires Valid() && p >= HDRLEN
      modifies this, buf, src
      ensures Valid() && (buf == old(buf) || fresh(buf)) && eof == old(eof)
      ensures took + src.data == old(src.data) && Contents() == old(Contents()) + took
      ensures |took| <= Need(old(Contents()))
    {
      took := [];
      var known, length := Length();
      var rem: int := length - p;
      while rem > 0
        invariant Valid() && (buf == old(buf) || fresh(buf)) && eof == old(eof) && p >= HDRLEN
        invariant took + src.data == old(src.data) && Contents() == old(Contents()) + took
        invariant rem == length - p && |took| <= Need(old(Contents()))
        invariant LenOf(Contents()) == length
        decreases rem
      {
        var r := src.Readsome(if rem < 256 then rem else 256);
        if |r| == 0 {
          return;
        }
        var n := Write(r);
        assert n == |r|;
        took := took + r;
        rem := rem - |r|;
      }
    }

    /** `xmsg_read`.  Starting from what the buffer held (nothing, if the last frame had been dealt with),
        it takes some bytes off the stream: the frame's and no more, and exactly those that were to be had. */
    method XmsgRead(src: Source) returns (ghost took: seq<byte>)
      requires Valid() && Tight(Contents())
      modifies this, buf, src
      ensures Valid() && (buf == old(buf) || fresh(buf)) && !eof
      ensures took + src.data == old(src.data)
      ensures var x := if old(eof) then [] else old(Contents());
        Contents() == x + took && |took| == Pull(x, took) && Tight(Contents())
    {
      hide Pull, Tight, Need;
      ghost var x := if eof then [] else Contents();
      assert Tight(x) by { EmptyIsTight(); }
      if eof {
        eof := false;
        var ok := SeekP(0);
      }
      assert Contents() == x;
      took := ReadHeader(src);
      ghost var header := took;
      if p < HDRLEN {
        ReadResult(x, header, []);
        assert header + [] == header;
        return;
      }
      took := ReadBody(src);
      ReadResult(x, header, took);
      assert (x + header) + took == x + (header + took);
      took := header + took;
    }
  }
}
