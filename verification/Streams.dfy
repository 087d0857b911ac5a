/** How writing frames to a transport and taking one off it look in terms of queues of frames. */
module Streams {
  import opened Frames
  import opened Connections
  import opened Reassembly
  import opened System
  import opened Invariant

  lemma Regroup(a: seq<byte>, w: seq<byte>, o: seq<byte>, x: seq<byte>)
    ensures a + (w + (o + x)) == (a + (w + o)) + x
  {
  }

  /** The receiving end and the wire of the controller's stream on `t` are as before. */
  predicate SameDownTail(s: Sys, s': Sys, t: nat)
    requires Valid(s) && Valid(s') && t < Width(s) && t < Width(s')
  {
    s'.seg.ins[t] == s.seg.ins[t] && s'.downWire[t] == s.downWire[t]
  }

  predicate SameUpTail(s: Sys, s': Sys, t: nat)
    requires Valid(s) && Valid(s') && t < Width(s) && t < Width(s')
  {
    s'.ctrl.ins[t] == s.ctrl.ins[t] && s'.upWire[t] == s.upWire[t]
  }

  lemma PushDown(s: Sys, s': Sys, t: nat, fs: seq<Frame>)
    requires Valid(s) && Valid(s') && t < Width(s) && t < Width(s')
    requires FrameStream(DownBytes(s, t)) && forall f :: f in fs ==> Sendable(f)
    requires SameDownTail(s, s', t) && s'.ctrl.outs[t] == s.ctrl.outs[t] + EncodeAll(fs)
    ensures FrameStream(DownBytes(s', t)) && DownQ(s', t) == DownQ(s, t) + fs
  {
    hide FrameStream, Parse, EncodeAll;
    Regroup(s.seg.ins[t], s.downWire[t], s.ctrl.outs[t], EncodeAll(fs));
    AppendFrames(DownBytes(s, t), fs);
  }

  lemma PushUp(s: Sys, s': Sys, t: nat, fs: seq<Frame>)
    requires Valid(s) && Valid(s') && t < Width(s) && t < Width(s')
    requires FrameStream(UpBytes(s, t)) && forall f :: f in fs ==> Sendable(f)
    requires SameUpTail(s, s', t) && s'.seg.outs[t] == s.seg.outs[t] + EncodeAll(fs)
    ensures FrameStream(UpBytes(s', t)) && UpQ(s', t) == UpQ(s, t) + fs
  {
    hide FrameStream, Parse, EncodeAll;
    Regroup(s.ctrl.ins[t], s.upWire[t], s.seg.outs[t], EncodeAll(fs));
    AppendFrames(UpBytes(s, t), fs);
  }

  lemma PopDown(s: Sys, s': Sys, t: nat)
    requires Valid(s) && Valid(s') && t < Width(s) && t < Width(s')
    requires FrameStream(DownBytes(s, t)) && Complete(s.seg.ins[t])
    requires s'.seg.ins[t] == [] && s'.downWire[t] == s.downWire[t] && s'.ctrl.outs[t] == s.ctrl.outs[t]
    ensures FrameStream(DownBytes(s', t)) && DownQ(s, t) == [Decode(s.seg.ins[t])] + DownQ(s', t)
    ensures Sendable(Decode(s.seg.ins[t]))
  {
    hide FrameStream, Parse;
    TakeFirst(s.seg.ins[t], s.downWire[t] + s.ctrl.outs[t]);
    assert DownBytes(s', t) == s.downWire[t] + s.ctrl.outs[t];
  }

  lemma PopUp(s: Sys, s': Sys, t: nat)
    requires Valid(s) && Valid(s') && t < Width(s) && t < Width(s')
    requires FrameStream(UpBytes(s, t)) && Complete(s.ctrl.ins[t])
    requires s'.ctrl.ins[t] == [] && s'.upWire[t] == s.upWire[t] && s'.seg.outs[t] == s.seg.outs[t]
    ensures FrameStream(UpBytes(s', t)) && UpQ(s, t) == [Decode(s.ctrl.ins[t])] + UpQ(s', t)
    ensures Sendable(Decode(s.ctrl.ins[t]))
  {
    hide FrameStream, Parse;
    TakeFirst(s.ctrl.ins[t], s.upWire[t] + s.seg.outs[t]);
    assert UpBytes(s', t) == s.upWire[t] + s.seg.outs[t];
  }

  /** All entries of a table are connections that were made. */
  predicate Registered(hist: map<Key, Hist>, conns: seq<Conn>, side: Side) {
    forall c :: c in conns ==> KeyOf(side, c) in hist
  }

  lemma KnownAppend(hist: map<Key, Hist>, t: nat, q: seq<Frame>, fs: seq<Frame>)
    requires Known(hist, t, q) && Known(hist, t, fs)
    ensures Known(hist, t, q + fs)
  {
  }

  lemma AddressedKnown(hist: map<Key, Hist>, conns: seq<Conn>, side: Side, sel: Sel, op: byte, flags: byte, data: seq<byte>, t: nat)
    requires Registered(hist, conns, side) && |data| <= MAX_PAYLOAD
    ensures Known(hist, t, Addressed(conns, side, sel, op, flags, data, t))
    ensures forall f :: f in Addressed(conns, side, sel, op, flags, data, t) ==> Sendable(f)
  {
    hide Addressed, Hit;
    AddressedMembers(conns, side, sel, op, flags, data, t);
    forall f | f in Addressed(conns, side, sel, op, flags, data, t) ensures Key(t, f.eid) in hist {
      var c :| c in conns && Hit(sel, c) && Bus(side, c) == t && c.uuid == f.eid;
    }
  }

  /** A loop of the controller over `conns` wrote one frame per selected entry. */
  lemma NotifyDown(s: Sys, s': Sys, conns: seq<Conn>, sel: Sel, op: byte, flags: byte, data: seq<byte>, t: nat)
    requires Valid(s) && Valid(s') && t < Width(s) == Width(s') && StreamOK(s, t)
    requires SameDownTail(s, s', t) && UpBytes(s', t) == UpBytes(s, t)
    requires s'.ctrl.outs[t] == s.ctrl.outs[t] + EncodeAll(Addressed(conns, AtController, sel, op, flags, data, t))
    requires s.hist.Keys <= s'.hist.Keys && Registered(s'.hist, conns, AtController) && |data| <= MAX_PAYLOAD
    ensures StreamOK(s', t)
    ensures DownQ(s', t) == DownQ(s, t) + Addressed(conns, AtController, sel, op, flags, data, t)
    ensures UpQ(s', t) == UpQ(s, t)
  {
    hide FrameStream, Parse, EncodeAll, Addressed;
    var fs := Addressed(conns, AtController, sel, op, flags, data, t);
    AddressedKnown(s'.hist, conns, AtController, sel, op, flags, data, t);
    PushDown(s, s', t, fs);
    KnownAppend(s'.hist, t, DownQ(s, t), fs);
  }

  /** A loop of the segment over `conns` wrote one frame per selected entry. */
  lemma NotifyUp(s: Sys, s': Sys, conns: seq<Conn>, sel: Sel, op: byte, flags: byte, data: seq<byte>, t: nat)
    requires Valid(s) && Valid(s') && t < Width(s) == Width(s') && StreamOK(s, t)
    requires SameUpTail(s, s', t) && DownBytes(s', t) == DownBytes(s, t)
    requires s'.seg.outs[t] == s.seg.outs[t] + EncodeAll(Addressed(conns, AtSegment, sel, op, flags, data, t))
    requires s.hist.Keys <= s'.hist.Keys && Registered(s'.hist, conns, AtSegment) && |data| <= MAX_PAYLOAD
    ensures StreamOK(s', t)
    ensures UpQ(s', t) == UpQ(s, t) + Addressed(conns, AtSegment, sel, op, flags, data, t)
    ensures DownQ(s', t) == DownQ(s, t)
  {
    hide FrameStream, Parse, EncodeAll, Addressed;
    var fs := Addressed(conns, AtSegment, sel, op, flags, data, t);
    AddressedKnown(s'.hist, conns, AtSegment, sel, op, flags, data, t);
    PushUp(s, s', t, fs);
    KnownAppend(s'.hist, t, UpQ(s, t), fs);
  }

  /** The part of such a loop's output that is for connection `k`. */
  function Share(conns: seq<Conn>, side: Side, sel: Sel, op: byte, flags: byte, data: seq<byte>, k: Key): seq<Frame> {
    var c := Find(conns, side, k);
    if c.Some? && Hit(sel, c.value) then [Frame(k.u, op, flags, data)] else []
  }

  lemma ShareOf(q: seq<Frame>, conns: seq<Conn>, side: Side, sel: Sel, op: byte, flags: byte, data: seq<byte>, k: Key)
    requires Distinct(conns, side)
    ensures Proj(q + Addressed(conns, side, sel, op, flags, data, k.t), k.u) == Proj(q, k.u) + Share(conns, side, sel, op, flags, data, k)
  {
    hide Proj, Addressed;
    AddressedProj(conns, side, sel, op, flags, data, k);
    ProjAppend(q, Addressed(conns, side, sel, op, flags, data, k.t), k.u);
  }

  /** Taking the first frame off a queue, seen by its own connection and by any other. */
  lemma ProjPop(f: Frame, q: seq<Frame>, u: Uuid)
    ensures Proj([f] + q, u) == if f.eid == u then [f] + Proj(q, u) else Proj(q, u)
  {
    assert ([f] + q)[1..] == q;
  }

  lemma ProjPush(q: seq<Frame>, f: Frame, u: Uuid)
    ensures Proj(q + [f], u) == if f.eid == u then Proj(q, u) + [f] else Proj(q, u)
  {
    ProjAppend(q, [f], u);
    assert [f][1..] == [];
  }

  /** A loop's effect on the state of one connection. */
  lemma TouchState(conns: seq<Conn>, side: Side, sel: Sel, op: byte, flags: byte, now: int, k: Key)
    requires Distinct(conns, side)
    ensures var c := Find(conns, side, k);
      StateOf(Find(Touch(conns, sel, op, flags, now), side, k)) ==
        if c.Some? && Hit(sel, c.value) then Some(NextState(c.value.state, op, flags)) else StateOf(c)
  {
    hide Hit, Find;
    TouchFind(conns, side, sel, op, flags, now, k);
  }
}
