/** The segment's handlers as they run; each method is proved to do what the
    function of the same name in `Segment` says. */
module SegmentConnector {
  import opened Frames
  import opened Connections
  import opened Loops
  import G = Segment

  /** `b` is `a` after the kernel took some bytes from the front of some transports. */
  predicate Flushed(a: G.Seg, b: G.Seg) {
    b == a.(outs := b.outs) && Drained(a.outs, b.outs)
  }

  class Connector {
    var connections: seq<Conn>
    var backends: seq<G.Backend>
    var outs: seq<seq<byte>>
    var ins: seq<seq<byte>>
    var dead: set<nat>
    var now: int

    ghost function View(): G.Seg
      reads this
    {
      G.Seg(connections, backends, outs, ins, dead, now)
    }

    ghost predicate Valid()
      reads this
    {
      G.Valid(View())
    }

    method WriteFrame(t: nat, f: Frame)
      requires Valid() && t < |outs|
      modifies this`outs
      ensures Valid() && outs == old(outs)[t := old(outs)[t] + Encode(f)]
    {
      var written := StreamWrite(outs[t], f);
      outs := outs[t := written];
    }

    /** `_route` from the bus to a backend, for a complete frame on transport `t`.  `mid` is the state after the
        flush that `_north_write` may have made on the backend's stream. */
    method RouteNorth(t: nat, f: Frame) returns (consumed: bool, ghost mid: G.Seg)
      requires Valid() && t < |outs|
      modifies this
      ensures Valid() && G.Valid(mid) && (mid == old(View()) || exists b: nat, k: nat :: mid == G.BackendFlush(old(View()), b, k))
      ensures View() == G.NorthRoute(mid, t, f)
      ensures consumed == !G.Judge(mid, t, f).Block?
    {
      hide StateUpdate, Encode, G.MatchKey, MakeTimes;
      mid := View();
      var i := FindKey(Key(t, f.eid));
      if i < |connections| && connections[i].state != CLOSED {
        var c := connections[i];
        var b := backends[c.south];
        if f.payload != [] {
          if b.unsent >= MAX_BUFSIZE - |f.payload| {
            var k: nat :| k <= b.unsent;
            b := b.(unsent := b.unsent - k);
            backends := backends[c.south := b];
            assert View() == G.BackendFlush(old(View()), c.south, k);
            mid := View();
          }
          if b.unsent >= MAX_BUFSIZE - |f.payload| {
            return false, mid;
          }
        }
        b := b.(written := b.written + f.payload, unsent := b.unsent + |f.payload|);
        if IsAbort(f) {
          b := b.(bad := true);
        }
        backends := backends[c.south := b];
        connections := connections[i := StateUpdate(c, f.op, f.flags, now)];
        assert G.Judge(mid, t, f).Accept? && View() == G.AcceptFrame(mid, t, f);
        return true, mid;
      }
      consumed := true;
      if IsInit(f) && f.payload != [] {
        var state := if f.op == STOP then HALF_CLOSED else HALF_OPEN;
        connections := connections + [Make(f.eid, t, |backends|, state, now)];
        backends := backends + [G.Backend(Key(t, f.eid), false, [], [], f.payload, |f.payload|, false)];
      } else if !IsAbort(f) {
        WriteFrame(t, AbortFrame(f.eid));
      }
    }

    method FindKey(k: Key) returns (i: nat)
      ensures i == G.MatchKey(connections, k)
    {
      hide G.MatchKey;
      i := 0;
      while i < |connections| && !(connections[i].uuid == k.u && connections[i].north == k.t)
        invariant i <= |connections|
        invariant forall j :: 0 <= j < i ==> KeyOf(AtSegment, connections[j]) != k
      {
        i := i + 1;
      }
      ghost var m := G.MatchKey(connections, k);
    }

    method FindSouth(b: nat) returns (i: nat)
      ensures i == G.MatchSouth(connections, b, dead)
    {
      hide G.MatchSouth;
      i := 0;
      while i < |connections| && !(connections[i].south == b && connections[i].north !in dead)
        invariant i <= |connections|
        invariant forall j :: 0 <= j < i ==> !(connections[j].south == b && connections[j].north !in dead)
      {
        i := i + 1;
      }
      ghost var m := G.MatchSouth(connections, b, dead);
    }

    /** `_route` from a backend to the bus, with the teardown its result asks for.  `mid` is the state after
        the flush that `_south_write` may have made on the transport. */
    method RouteSouth(b: nat) returns (ghost mid: G.Seg)
      requires Valid() && b < |backends|
      modifies this
      ensures Valid() && G.Valid(mid) && Flushed(old(View()), mid)
      ensures View() == G.SouthRoute(mid, b)
    {
      hide StateUpdate, Encode, G.MatchSouth, G.SouthErr, G.SendFrame, G.Advance;
      mid := View();
      var i := FindSouth(b);
      if i == |connections| {
        if backends[b].pend != [] {
          SouthErr(b);
        }
      } else if backends[b].eof || backends[b].pend != [] {
        var sent;
        sent, mid := SouthWrite(b, i);
        if sent {
          Advance(b, i);
        }
      } else {
        Advance(b, i);
      }
    }

    /** `_south_write`: a frame with the backend's chunk or end of file, if its transport has room for it. */
    method SouthWrite(b: nat, i: nat) returns (sent: bool, ghost mid: G.Seg)
      requires Valid() && b < |backends| && i < |connections| && i == G.MatchSouth(connections, b, dead) && G.HasNews(backends[b])
      modifies this`outs, this`backends
      ensures Valid() && G.Valid(mid) && Flushed(old(View()), mid)
      ensures sent == !G.Blocked(mid, b)
      ensures if sent then G.Speaks(mid, b) && View() == G.SendFrame(mid, b) else View() == mid
    {
      hide StateUpdate, Encode, G.MatchSouth;
      mid := View();
      var c, bk := connections[i], backends[b];
      var pos: int := MAX_BUFSIZE - (HDRLEN + |bk.pend|);
      if |outs[c.north]| >= pos {
        var k: nat :| k <= |outs[c.north]|;
        outs := outs[c.north := outs[c.north][k..]];
        mid := View();
      }
      sent := |outs[c.north]| <= pos;
      if sent {
        WriteFrame(c.north, Frame(c.uuid, if bk.eof then STOP else DATA, 0, bk.pend));
        backends := backends[b := bk.(pend := [])];
      }
    }

    /** The state change after a backend was heard, and the teardown when it closes the connection. */
    method Advance(b: nat, i: nat)
      requires Valid() && b < |backends| && i < |connections| && i == G.MatchSouth(connections, b, dead)
      modifies this`connections, this`outs
      ensures Valid() && View() == G.Advance(old(View()), b)
    {
      hide StateUpdate, G.MatchSouth, G.SouthErr;
      connections := connections[i := StateUpdate(connections[i], if backends[b].eof then STOP else DATA, 0, now)];
      if connections[i].state == CLOSED {
        SouthErr(b);
      }
    }

    /** `_south_err_handler`. */
    method SouthErr(b: nat)
      requires Valid()
      modifies this`connections, this`outs
      ensures Valid() && View() == G.SouthErr(old(View()), b)
    {
      hide StateUpdate, Encode, Addressed, Notify;
      ghost var conns0, outs0, sel := connections, outs, ServingSouth(b, dead);
      var kept: seq<Conn> := [];
      var i := 0;
      NotifyNone(outs0, AtSegment, sel, STOP, ABORT, []);
      assert conns0[..0] == [];
      while i < |connections|
        invariant 0 <= i <= |connections|
        invariant G.Valid(View()) && View() == old(View()).(outs := outs)
        invariant kept == Drop(conns0[..i], OfSouth(b))
        invariant outs == Notify(outs0, conns0[..i], AtSegment, sel, STOP, ABORT, [])
      {
        NotifyStep(outs0, conns0, AtSegment, sel, STOP, ABORT, [], i);
        DropStep(conns0, OfSouth(b), i);
        var c := connections[i];
        if c.south == b {
          if c.north !in dead && c.state < CLOSED {
            WriteFrame(c.north, AbortFrame(c.uuid));
          }
        } else {
          kept := kept + [c];
        }
        i := i + 1;
      }
      assert conns0[..i] == conns0;
      connections := kept;
    }

    /** `erase_connect`. */
    method ConnectFail(b: nat)
      requires Valid()
      modifies this`connections, this`outs
      ensures Valid() && View() == G.ConnectFail(old(View()), b)
    {
      hide StateUpdate, Encode, Addressed, Notify;
      ghost var conns0, outs0 := connections, outs;
      var kept: seq<Conn> := [];
      var i := 0;
      NotifyNone(outs0, AtSegment, OfSouth(b), STOP, ABORT, []);
      assert conns0[..0] == [];
      while i < |connections|
        invariant 0 <= i <= |connections|
        invariant G.Valid(View()) && View() == old(View()).(outs := outs)
        invariant kept == Drop(conns0[..i], OfSouth(b))
        invariant outs == Notify(outs0, conns0[..i], AtSegment, OfSouth(b), STOP, ABORT, [])
      {
        NotifyStep(outs0, conns0, AtSegment, OfSouth(b), STOP, ABORT, [], i);
        DropStep(conns0, OfSouth(b), i);
        var c := connections[i];
        if c.south == b {
          WriteFrame(c.north, AbortFrame(c.uuid));
        } else {
          kept := kept + [c];
        }
        i := i + 1;
      }
      assert conns0[..i] == conns0;
      connections := kept;
    }

    /** `_north_err_handler`. */
    method NorthErr(t: nat)
      requires Valid()
      modifies this
      ensures Valid() && View() == G.NorthErr(old(View()), t)
    {
      hide StateUpdate, Halfway, Touch;
      ghost var conns0 := connections;
      var i := 0;
      HalfwayEnds(conns0, OfNorth(t), STOP, ABORT, now);
      while i < |connections|
        invariant 0 <= i <= |connections| == |conns0|
        invariant View() == old(View()).(conns := connections)
        invariant connections == Halfway(conns0, OfNorth(t), STOP, ABORT, now, i)
      {
        HalfwayStep(conns0, OfNorth(t), STOP, ABORT, now, i);
        if connections[i].north == t {
          connections := connections[i := StateUpdate(connections[i], STOP, ABORT, now)];
        }
        i := i + 1;
      }
      dead := dead + {t};
    }
  }
}
