/** The controller's handlers as they run: loops over the connection table that
    write to streams and update entries in place.  Each method is proved to do
    what the function of the same name in `Controller` says. */
module ControllerConnector {
  import opened Frames
  import opened Connections
  import opened Loops
  import C = Controller

  lemma FoundStep(conns: seq<Conn>, sel: Sel, n: nat, dead: set<nat>, i: nat)
    requires i < |conns|
    ensures C.Connected(conns[..i + 1], n, dead) <==> C.Connected(conns[..i], n, dead) || (conns[i].north == n && conns[i].south !in dead)
    ensures C.AnyHit(conns[..i + 1], sel) <==> C.AnyHit(conns[..i], sel) || Hit(sel, conns[i])
  {
    hide Hit;
    var a, b := conns[..i], conns[..i + 1];
    assert b[i] == conns[i];
    assert forall j :: 0 <= j < i ==> b[j] == a[j];
  }

  lemma NothingFound(sel: Sel, n: nat, dead: set<nat>)
    ensures !C.Connected([], n, dead) && !C.AnyHit([], sel)
  {
  }

  /** A fan-out for a client without connections does nothing. */
  lemma FanOutIdle(c: C.Ctrl, n: nat)
    requires C.Valid(c) && C.Speaks(c, n) && !C.Connected(c.conns, n, c.dead)
    ensures C.FanOut(c, n) == c
  {
    hide C.Refuses, EncodeAll, StateUpdate;
    var sel := ServingNorth(n, c.dead);
    forall x | x in c.conns ensures !Hit(sel, x) {
      var i :| 0 <= i < |c.conns| && c.conns[i] == x;
    }
    assert C.FanOut(c, n).conns == c.conns;
    var cl := c.clients[n];
    forall t | 0 <= t < |c.outs| ensures C.FanOut(c, n).outs[t] == c.outs[t] {
      AddressedNobody(c.conns, AtController, sel, if cl.eof then STOP else DATA, 0, cl.pend, t);
      assert EncodeAll([]) == [] && c.outs[t] + [] == c.outs[t] by { Nothing(c.outs[t]); }
    }
    assert C.FanOut(c, n).outs == c.outs;
  }

  lemma Nothing(b: seq<byte>)
    ensures EncodeAll([]) == [] && b + [] == b
  {
  }

  /** `b` is `a` after the kernel took some bytes from the front of some streams. */
  predicate Flushed(a: C.Ctrl, b: C.Ctrl) {
    b == a.(outs := b.outs) && Drained(a.outs, b.outs)
  }

  lemma FlushedMore(a: C.Ctrl, b: C.Ctrl, c: C.Ctrl)
    requires Flushed(a, b) && Flushed(b, c)
    ensures Flushed(a, c)
  {
    DrainedMore(a.outs, b.outs, c.outs);
  }

  // ---------------------------------------------------------------------------
  // The connector

  class Connector {
    var mode: C.Mode
    var connections: seq<Conn>
    var clients: seq<C.Client>
    var outs: seq<seq<byte>>
    var ins: seq<seq<byte>>
    var dead: set<nat>
    var now: int

    ghost function View(): C.Ctrl
      reads this
    {
      C.Ctrl(mode, connections, clients, outs, ins, dead, now)
    }

    ghost predicate Valid()
      reads this
    {
      C.Valid(View())
    }

    /** `flush`: the kernel takes as many bytes as it likes. */
    method Flush(t: nat)
      requires Valid() && t < |outs|
      modifies this`outs
      ensures Valid() && Flushed(old(View()), View())
    {
      var k: nat :| k <= |outs[t]|;
      outs := outs[t := outs[t][k..]];
    }

    /** One frame on a transport. */
    method WriteFrame(t: nat, f: Frame)
      requires Valid() && t < |outs|
      modifies this`outs
      ensures Valid() && outs == old(outs)[t := old(outs)[t] + Encode(f)]
    {
      var written := StreamWrite(outs[t], f);
      outs := outs[t := written];
    }

    /** `write_prepare`: the first connection of client `n` in `conns` whose stream has no room, after flushing the full ones. */
    method WritePrepare(conns: seq<Conn>, n: nat, p: nat) returns (at: nat)
      requires Valid() && forall i :: 0 <= i < |conns| ==> conns[i].south < |outs|
      modifies this`outs
      ensures Valid() && Flushed(old(View()), View())
      ensures at <= |conns|
      ensures at < |conns| <==> C.Refuses(conns, outs, n, dead, p)
    {
      var pos: int := MAX_BUFSIZE - (p + HDRLEN);
      var i := 0;
      while i < |conns|
        invariant 0 <= i <= |conns| && Valid() && Flushed(old(View()), View())
        invariant forall j :: 0 <= j < i && conns[j].north == n && conns[j].south !in dead ==> |outs[conns[j].south]| <= pos
      {
        if conns[i].north == n && conns[i].south !in dead {
          if |outs[conns[i].south]| >= pos {
            ghost var before := View();
            Flush(conns[i].south);
            FlushedMore(old(View()), before, View());
          }
          if |outs[conns[i].south]| > pos {
            return i;
          }
        }
        i := i + 1;
      }
      return |conns|;
    }

    /** `_route` from a client to the bus.  `mid` is the state after the flushes that `write_prepare` made. */
    method RouteNorth(n: nat, ts: seq<nat>, u: Uuid) returns (ghost mid: C.Ctrl)
      requires Valid() && n < |clients| && clients[n].alive
      requires forall i :: 0 <= i < |ts| ==> ts[i] < |outs|
      modifies this
      ensures Valid() && Flushed(old(View()), mid) && C.Valid(mid)
      ensures View() == C.NorthRoute(mid, n, ts, u)
    {
      hide Hit, StateUpdate, Encode, C.Refuses, Addressed;
      mid := View();
      var cl := clients[n];
      if !cl.eof && cl.pend == [] {
        return;
      }
      var at := WritePrepare(connections, n, |cl.pend|);
      mid := View();
      if at < |connections| {
        return;
      }
      var connected := FanOutLoop(n);
      assert C.Speaks(mid, n) && View() == C.FanOut(mid, n);
      if !cl.eof && !connected {
        FanOutIdle(mid, n);
        ghost var before := mid;
        mid := NorthConnect(n, ts, u);
        FlushedMore(old(View()), before, mid);
        assert C.Speaks(mid, n) by { IdleSpeaks(before, mid, n); }
        FanOutIdle(mid, n);
      }
    }

    /** The loop that frames a client's chunk, or its end of file, to its connections. */
    method FanOutLoop(n: nat) returns (connected: bool)
      requires Valid() && C.Speaks(View(), n)
      modifies this
      ensures Valid() && View() == C.FanOut(old(View()), n)
      ensures connected == C.Connected(old(connections), n, dead)
    {
      hide StateUpdate, Encode, C.Refuses, Addressed, Halfway, Touch, Notify, C.Connected, C.AnyHit, LengthField;
      var cl := clients[n];
      var op := if cl.eof then STOP else DATA;
      ghost var conns0, outs0, sel := connections, outs, ServingNorth(n, dead);
      connected := false;
      var wrote := false;
      var i := 0;
      NotifyNone(outs0, AtController, sel, op, 0, cl.pend);
      HalfwayEnds(conns0, sel, op, 0, now);
      NothingFound(sel, n, dead);
      while i < |connections|
        invariant 0 <= i <= |connections| == |conns0|
        invariant C.Valid(View()) && View() == old(View()).(conns := connections, outs := outs)
        invariant connections == Halfway(conns0, sel, op, 0, now, i)
        invariant outs == Notify(outs0, conns0[..i], AtController, sel, op, 0, cl.pend)
        invariant connected == C.Connected(conns0[..i], n, dead) && wrote == C.AnyHit(conns0[..i], sel)
      {
        HalfwayStep(conns0, sel, op, 0, now, i);
        NotifyStep(outs0, conns0, AtController, sel, op, 0, cl.pend, i);
        FoundStep(conns0, sel, n, dead, i);
        var c := connections[i];
        if c.north == n && c.south !in dead {
          connected := true;
          if c.state != CLOSED {
            WriteFrame(c.south, Frame(c.uuid, op, 0, cl.pend));
            connections := connections[i := StateUpdate(c, op, 0, now)];
            wrote := true;
          }
        }
        i := i + 1;
      }
      if wrote {
        clients := clients[n := cl.(pend := [])];
      }
    }

    /** `_north_connect`: one connection per transport in `ts`, each with its UUID, then the first frame if there is room. */
    method NorthConnect(n: nat, ts: seq<nat>, u: Uuid) returns (ghost mid: C.Ctrl)
      requires Valid() && n < |clients|
      requires forall i :: 0 <= i < |ts| ==> ts[i] < |outs|
      modifies this
      ensures Valid() && Flushed(old(View()), mid) && C.Valid(mid)
      ensures View() == C.Connect(mid, n, ts, u)
    {
      hide Hit, C.Refuses, C.NewConns, Notify;
      var cl := clients[n];
      var connect := MakeConnections(n, ts, u);
      var at := WritePrepare(connect, n, |cl.pend|);
      mid := View();
      if at == |connect| {
        FirstFrames(connect, cl.pend);
        clients := clients[n := cl.(pend := [])];
      }
      connections := connections + connect;
    }

    /** The loop that gives every connection its UUID. */
    method MakeConnections(n: nat, ts: seq<nat>, u: Uuid) returns (connect: seq<Conn>)
      ensures connect == C.NewConns(mode, u, n, ts, now)
    {
      hide MakeTimes;
      var eid := u;
      connect := [];
      ghost var made := C.NewConns(mode, u, n, ts, now);
      var i := 0;
      while i < |ts|
        invariant 0 <= i <= |ts| && connect == made[..i]
        invariant eid == if mode.FULL_DUPLEX? then C.BumpBy(u, i) else u
      {
        if mode.FULL_DUPLEX? {
          eid := C.Bump(eid);
        }
        assert made[..i + 1] == made[..i] + [made[i]];
        connect := connect + [Make(eid, n, ts[i], HALF_OPEN, now)];
        i := i + 1;
      }
    }

    /** The loop that writes the first chunk to every connection. */
    method FirstFrames(connect: seq<Conn>, chunk: seq<byte>)
      requires Valid() && forall i :: 0 <= i < |connect| ==> connect[i].south < |outs|
      modifies this`outs
      ensures Valid() && View() == old(View()).(outs := Notify(old(outs), connect, AtController, Everyone, DATA, INIT, chunk))
    {
      hide Hit, Encode, Addressed;
      ghost var outs0 := outs;
      var j := 0;
      NotifyNone(outs0, AtController, Everyone, DATA, INIT, chunk);
      assert connect[..0] == [];
      while j < |connect|
        invariant 0 <= j <= |connect|
        invariant C.Valid(View()) && View() == old(View()).(outs := outs)
        invariant outs == Notify(outs0, connect[..j], AtController, Everyone, DATA, INIT, chunk)
      {
        NotifyStep(outs0, connect, AtController, Everyone, DATA, INIT, chunk, j);
        assert Hit(Everyone, connect[j]) by { EveryoneHit(connect[j]); }
        WriteFrame(connect[j].south, Frame(connect[j].uuid, DATA, INIT, chunk));
        j := j + 1;
      }
      assert connect[..j] == connect;
    }

    /** `_route` from the bus to a client, for a complete frame on transport `t`.  `mid` is the state after the
        flush that `_south_write` may have made on the client's stream. */
    method RouteSouth(t: nat, f: Frame) returns (consumed: bool, ghost mid: C.Ctrl)
      requires Valid() && t < |outs|
      modifies this
      ensures Valid() && C.Valid(mid) && (mid == old(View()) || exists n: nat, k: nat :: mid == C.ClientFlush(old(View()), n, k))
      ensures View() == C.SouthRoute(mid, t, f)
      ensures consumed == !C.Judge(mid, t, f).Block?
    {
      hide Hit, StateUpdate, Encode, Addressed, C.MatchNode;
      mid := View();
      var i := FindNode(t, f.eid);
      if i < |connections| && connections[i].state != CLOSED {
        var c := connections[i];
        var cl := clients[c.north];
        if !cl.alive {
          return true, mid;
        }
        if !(c.state == HALF_CLOSED && !cl.eof && !IsAbort(f)) {
          if f.payload != [] {
            if cl.unsent >= MAX_BUFSIZE - |f.payload| {
              var k: nat :| k <= cl.unsent;
              cl := cl.(unsent := cl.unsent - k);
              clients := clients[c.north := cl];
              assert View() == C.ClientFlush(old(View()), c.north, k);
              mid := View();
            }
            if cl.unsent >= MAX_BUFSIZE - |f.payload| {
              return false, mid;
            }
            clients := clients[c.north := cl.(log := cl.log + [C.Piece(Key(t, c.uuid), f.payload)], unsent := cl.unsent + |f.payload|)];
          }
          connections := connections[i := StateUpdate(c, f.op, f.flags, now)];
          assert mid.clients[c.north := mid.clients[c.north]] == mid.clients;
          assert C.Judge(mid, t, f).Accept? && View() == C.AcceptFrame(mid, t, f);
          if mode.HALF_DUPLEX? && c.state == HALF_OPEN && f.payload != [] {
            LatchLoop(t, f.eid);
          }
          return true, mid;
        }
      }
      if !IsAbort(f) {
        WriteFrame(t, AbortFrame(f.eid));
      }
      consumed := true;
    }

    /** The search of the route loop. */
    method FindNode(t: nat, u: Uuid) returns (i: nat)
      ensures i == C.MatchNode(connections, t, u)
    {
      hide C.MatchNode;
      i := 0;
      while i < |connections| && !(connections[i].south == t && Node(connections[i].uuid) == Node(u))
        invariant i <= |connections|
        invariant forall j :: 0 <= j < i ==> !(connections[j].south == t && Node(connections[j].uuid) == Node(u))
      {
        i := i + 1;
      }
      ghost var m := C.MatchNode(connections, t, u);
    }

    /** The loop that aborts the other connections of a session. */
    method LatchLoop(t: nat, u: Uuid)
      requires Valid()
      modifies this
      ensures Valid() && View() == C.Latch(old(View()), t, u)
    {
      hide StateUpdate, Encode, Addressed, Halfway, Touch, Notify;
      ghost var conns0, outs0, sel := connections, outs, Siblings(u, t, dead);
      var i := 0;
      NotifyNone(outs0, AtController, sel, STOP, ABORT, []);
      HalfwayEnds(conns0, sel, STOP, ABORT, now);
      while i < |connections|
        invariant 0 <= i <= |connections| == |conns0|
        invariant C.Valid(View()) && View() == old(View()).(conns := connections, outs := outs)
        invariant connections == Halfway(conns0, sel, STOP, ABORT, now, i)
        invariant outs == Notify(outs0, conns0[..i], AtController, sel, STOP, ABORT, [])
      {
        HalfwayStep(conns0, sel, STOP, ABORT, now, i);
        NotifyStep(outs0, conns0, AtController, sel, STOP, ABORT, [], i);
        var c := connections[i];
        if c.uuid == u && c.state < HALF_CLOSED {
          if c.south != t {
            if c.south !in dead {
              WriteFrame(c.south, AbortFrame(c.uuid));
              connections := connections[i := StateUpdate(c, STOP, ABORT, now)];
            }
          }
        }
        i := i + 1;
      }
    }

    /** `_north_err_handler`. */
    method NorthErr(n: nat)
      requires Valid() && n < |clients| && clients[n].alive
      modifies this
      ensures Valid() && View() == C.NorthErr(old(View()), n)
    {
      hide StateUpdate, Encode, Addressed;
      ghost var conns0, outs0, sel := connections, outs, ServingNorth(n, dead);
      var kept: seq<Conn> := [];
      var i := 0;
      NotifyNone(outs0, AtController, sel, STOP, ABORT, []);
      assert conns0[..0] == [];
      while i < |connections|
        invariant 0 <= i <= |connections|
        invariant C.Valid(View()) && View() == old(View()).(outs := outs)
        invariant kept == Drop(conns0[..i], OfNorth(n))
        invariant outs == Notify(outs0, conns0[..i], AtController, sel, STOP, ABORT, [])
      {
        NotifyStep(outs0, conns0, AtController, sel, STOP, ABORT, [], i);
        DropStep(conns0, OfNorth(n), i);
        var c := connections[i];
        if c.north == n {
          if c.south !in dead && c.state < CLOSED {
            WriteFrame(c.south, AbortFrame(c.uuid));
          }
        } else {
          kept := kept + [c];
        }
        i := i + 1;
      }
      assert conns0[..i] == conns0;
      connections := kept;
      clients := clients[n := clients[n].(alive := false)];
    }

    /** `_south_err_handler`. */
    method SouthErr(t: nat)
      requires Valid()
      modifies this
      ensures Valid() && View() == C.SouthErr(old(View()), t)
    {
      hide StateUpdate;
      ghost var conns0, orphans := connections, Orphans(t, C.Gone(clients));
      var kept: seq<Conn> := [];
      var i := 0;
      assert conns0[..0] == [];
      while i < |connections|
        invariant 0 <= i <= |connections| && View() == old(View())
        invariant kept == Touch(Drop(conns0[..i], orphans), OfSouth(t), STOP, ABORT, now)
      {
        DropStep(conns0, orphans, i);
        var c := connections[i];
        ghost var left := Drop(conns0[..i], orphans);
        if c.south == t {
          if clients[c.north].alive {
            TouchLast(left, c, OfSouth(t), now);
            kept := kept + [StateUpdate(c, STOP, ABORT, now)];
          }
        } else {
          TouchLast(left, c, OfSouth(t), now);
          kept := kept + [c];
        }
        i := i + 1;
      }
      assert conns0[..i] == conns0;
      connections := kept;
      dead := dead + {t};
    }

    /** `session_state`. */
    method StateOfSession(n: nat) returns (state: State)
      ensures state == C.SessionState(connections, n)
    {
      state := CLOSED;
      var i := 0;
      assert connections[..0] == [];
      while i < |connections|
        invariant 0 <= i <= |connections|
        invariant state == C.SessionState(connections[..i], n)
      {
        Prefix(connections, i);
        var c := connections[i];
        if c.north == n {
          if c.state == OPEN {
            state := c.state;
          } else if state != OPEN {
            state := if c.state < state then c.state else state;
          }
        }
        i := i + 1;
      }
      assert connections[..i] == connections;
    }
  }

  /** Flushing does not stop a client without connections from being heard. */
  lemma IdleSpeaks(a: C.Ctrl, b: C.Ctrl, n: nat)
    requires C.Valid(a) && C.Speaks(a, n) && !C.Connected(a.conns, n, a.dead) && Flushed(a, b) && C.Valid(b)
    ensures C.Speaks(b, n) && !C.Connected(b.conns, n, b.dead)
  {
  }
}
