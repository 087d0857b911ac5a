/** How much may pile up: what a stream may hold back, over every run. */
module Bounds {
  import opened Frames
  import opened Connections
  import opened Reassembly
  import opened System
  import opened Invariant
  import opened Theorems
  import Steps = ControllerSteps
  import Segments = SegmentSteps
  import F = Flow
  import C = Controller
  import G = Segment

  // ---------------------------------------------------------------------------
  // Transports

  lemma {:induction false} ProjAll(q: seq<Frame>, u: Uuid)
    requires forall f :: f in q ==> f.eid == u
    ensures Proj(q, u) == q
  {
    if q != [] {
      ProjAll(q[1..], u);
    }
  }

  /** A fan-out puts at most one frame on any one transport. */
  lemma OneFramePerTransport(conns: seq<Conn>, dead: set<nat>, n: nat, op: byte, data: seq<byte>, t: nat)
    requires Distinct(conns, AtController) && LiveOK(conns, dead)
    ensures |Addressed(conns, AtController, ServingNorth(n, dead), op, 0, data, t)| <= 1
  {
    hide Proj, Addressed, Find;
    var q := Addressed(conns, AtController, ServingNorth(n, dead), op, 0, data, t);
    if q != [] {
      AddressedMembers(conns, AtController, ServingNorth(n, dead), op, 0, data, t);
      var u := q[0].eid;
      assert q[0] in q;
      forall f | f in q ensures f.eid == u {
        var c :| c in conns && Hit(ServingNorth(n, dead), c) && Bus(AtController, c) == t && c.uuid == f.eid;
        var d :| d in conns && Hit(ServingNorth(n, dead), d) && Bus(AtController, d) == t && d.uuid == u;
      }
      ProjAll(q, u);
      AddressedProj(conns, AtController, ServingNorth(n, dead), op, 0, data, Key(t, u));
    }
  }

  lemma AddressedToMine(conns: seq<Conn>, dead: set<nat>, n: nat, op: byte, data: seq<byte>, t: nat)
    requires Addressed(conns, AtController, ServingNorth(n, dead), op, 0, data, t) != []
    ensures exists i :: 0 <= i < |conns| && conns[i].north == n && conns[i].south == t && t !in dead
  {
    hide Addressed;
    AddressedMembers(conns, AtController, ServingNorth(n, dead), op, 0, data, t);
    var f := Addressed(conns, AtController, ServingNorth(n, dead), op, 0, data, t)[0];
    assert f in Addressed(conns, AtController, ServingNorth(n, dead), op, 0, data, t);
    var c :| c in conns && Hit(ServingNorth(n, dead), c) && Bus(AtController, c) == t && c.uuid == f.eid;
  }

  /** A stream is as it was, or within the bound. */
  predicate Within(before: seq<byte>, after: seq<byte>) {
    after == before || |after| <= MAX_BUFSIZE
  }

  /** A client's chunk leaves every transport as it was, or within the bound. */
  lemma FanOutIsBounded(s: Sys, n: nat, t: nat)
    requires Inv(s) && t < Width(s) && C.Speaks(s.ctrl, n)
    ensures Within(s.ctrl.outs[t], C.FanOut(s.ctrl, n).outs[t])
  {
    hide F.Sound, FlowsOK, StreamsOK, Addressed, Encode, Lawful, Hit;
    var cl := s.ctrl.clients[n];
    var q := Addressed(s.ctrl.conns, AtController, ServingNorth(n, s.ctrl.dead), Steps.Spoken(cl), 0, cl.pend, t);
    if q != [] {
      OneFramePerTransport(s.ctrl.conns, s.ctrl.dead, n, Steps.Spoken(cl), cl.pend, t);
      AddressedToMine(s.ctrl.conns, s.ctrl.dead, n, Steps.Spoken(cl), cl.pend, t);
      AddressedMembers(s.ctrl.conns, AtController, ServingNorth(n, s.ctrl.dead), Steps.Spoken(cl), 0, cl.pend, t);
      assert q == [q[0]] && q[0] in q;
      assert |EncodeAll(q)| == HDRLEN + |cl.pend|;
    }
  }

  /** So does opening a session. */
  lemma ConnectIsBounded(c: C.Ctrl, n: nat, ts: seq<nat>, u: Uuid, t: nat)
    requires C.Valid(c) && t < |c.outs| && n < |c.clients|
    requires forall i :: 0 <= i < |ts| ==> ts[i] < |c.outs| && ts[i] !in c.dead
    requires forall i, j :: 0 <= i < j < |ts| ==> ts[i] != ts[j]
    ensures Within(c.outs[t], C.Connect(c, n, ts, u).outs[t])
  {
    hide Addressed, Encode, Lawful;
    var cl, made := c.clients[n], C.NewConns(c.mode, u, n, ts, c.now);
    if !C.Refuses(made, c.outs, n, c.dead, |cl.pend|) {
      if t in ts {
        var i :| 0 <= i < |ts| && ts[i] == t;
        assert made[i].south == t && made[i].north == n;
      }
      AddressedOnce(made, ts, t, cl.pend);
    }
  }

  lemma {:induction false} AddressedOnce(made: seq<Conn>, ts: seq<nat>, t: nat, data: seq<byte>)
    requires |made| == |ts| && forall i :: 0 <= i < |ts| ==> made[i].south == ts[i]
    requires forall i, j :: 0 <= i < j < |ts| ==> ts[i] != ts[j]
    ensures t !in ts ==> Addressed(made, AtController, Everyone, DATA, INIT, data, t) == []
    ensures |EncodeAll(Addressed(made, AtController, Everyone, DATA, INIT, data, t))| <= HDRLEN + |data|
  {
    hide Encode;
    if made != [] {
      var n := |made| - 1;
      AddressedOnce(made[..n], ts[..n], t, data);
      var f := Frame(made[n].uuid, DATA, INIT, data);
      if ts[n] == t {
        assert t !in ts[..n];
        assert [] + [f] == [f];
        assert EncodeAll([f]) == Encode(f) + EncodeAll([f][1..]) == Encode(f) + [] == Encode(f);
      }
    }
  }

  /** In every reachable state, a route from a client leaves each transport as it was or with at most 256 MiB pending. */
  lemma PendingIsBounded(mode: C.Mode, steps: seq<Step>, n: nat, ts: seq<nat>, u: Uuid, t: nat)
    requires t < Width(Reach(mode, steps))
    ensures var s := Reach(mode, steps);
      Within(s.ctrl.outs[t], Next(s, NorthRoute(n, ts, u)).ctrl.outs[t])
  {
    hide Inv, Reach, C.FanOut, C.Connect, C.Speaks, C.Connects, FanOutHist, ConnectHist;
    var s := Reach(mode, steps);
    Reachable(mode, steps);
    if C.Speaks(s.ctrl, n) {
      FanOutIsBounded(s, n, t);
      SameEdges(s.ctrl, n);
      if MayConnect(s, ts, u) {
        ConnectIsBounded(C.FanOut(s.ctrl, n), n, ts, u, t);
      }
    }
  }

  lemma SameEdges(c: C.Ctrl, n: nat)
    requires C.Valid(c) && C.Speaks(c, n)
    ensures var c' := C.FanOut(c, n);
      |c'.outs| == |c.outs| && |c'.clients| == |c.clients| && c'.dead == c.dead && n < |c.clients|
  {
    hide C.Refuses, C.AnyHit, Touch, Notify;
  }

  // ---------------------------------------------------------------------------
  // The segment's transports

  /** At the segment, a backend has at most one entry. */
  lemma OneEntry(s: Sys, i: nat, j: nat)
    requires Tables(s) && i < |s.seg.conns| && j < |s.seg.conns| && s.seg.conns[i].south == s.seg.conns[j].south
    ensures i == j
  {
    hide CtrlOK, ClientsOK, NodesOK, Lawful;
    var k, l := KeyOf(AtSegment, s.seg.conns[i]), KeyOf(AtSegment, s.seg.conns[j]);
    assert InRange(s, k) && InRange(s, l);
  }

  lemma TeardownIsSilent(g: G.Seg, b: nat)
    requires G.Valid(g) && forall c :: c in g.conns ==> !Hit(ServingSouth(b, g.dead), c)
    ensures G.SouthErr(g, b).outs == g.outs
  {
    hide Hit, Drop, Notify;
    NotifyNobody(g.outs, g.conns, AtSegment, ServingSouth(b, g.dead), STOP, ABORT, []);
  }

  /** What follows a backend's chunk sends nothing. */
  lemma AdvanceIsSilent(s: Sys, g: G.Seg, b: nat)
    requires Inv(s) && b < |s.seg.backends| && G.Valid(g) && g.conns == s.seg.conns && g.dead == s.seg.dead && |g.backends| == |s.seg.backends|
    ensures G.Advance(g, b).outs == g.outs
  {
    hide FlowsOK, StreamsOK, CtrlOK, ClientsOK, SegOK, BackendsOK, HistOK, StateUpdate, G.SouthErr, G.MatchSouth;
    var i := G.MatchSouth(g.conns, b, g.dead);
    if i < |g.conns| {
      var x := StateUpdate(g.conns[i], if g.backends[b].eof then STOP else DATA, 0, g.now);
      var g' := g.(conns := g.conns[i := x]);
      if x.state == CLOSED {
        forall c | c in g'.conns ensures !Hit(ServingSouth(b, g'.dead), c) {
          var j :| 0 <= j < |g'.conns| && g'.conns[j] == c;
          if j != i && c.south == b {
            OneEntry(s, i, j);
          }
        }
        TeardownIsSilent(g', b);
      }
    }
  }

  lemma SendIsBounded(g: G.Seg, b: nat, t: nat)
    requires G.Valid(g) && G.Speaks(g, b) && t < |g.outs|
    ensures var g' := G.SendFrame(g, b);
      && Within(g.outs[t], g'.outs[t]) && g'.conns == g.conns && g'.dead == g.dead && |g'.backends| == |g.backends|
  {
    hide G.MatchSouth, Encode;
  }

  /** In every reachable state, a route from a backend leaves each transport as it was or with at most 256 MiB pending. */
  lemma ReportsAreBounded(mode: C.Mode, steps: seq<Step>, b: nat, t: nat)
    requires t < Width(Reach(mode, steps))
    ensures var s := Reach(mode, steps);
      Within(s.seg.outs[t], Next(s, SegSouth(b)).seg.outs[t])
  {
    hide Reach, Inv, G.SouthErr, G.SendFrame, G.Advance;
    var s := Reach(mode, steps);
    Reachable(mode, steps);
    assert Next(s, SegSouth(b)).seg == G.SouthRoute(s.seg, b) by { SouthIs(s, b); }
    if b < |s.seg.backends| {
      if G.MatchSouth(s.seg.conns, b, s.seg.dead) == |s.seg.conns| {
        NobodySouth(s.seg, b);
        TeardownIsSilent(s.seg, b);
      } else {
        AdvanceIsSilent(s, s.seg, b);
        if G.Speaks(s.seg, b) {
          SendIsBounded(s.seg, b, t);
          AdvanceIsSilent(s, G.SendFrame(s.seg, b), b);
        }
      }
    }
  }

  lemma SouthIs(s: Sys, b: nat)
    requires Valid(s)
    ensures Next(s, SegSouth(b)).seg == G.SouthRoute(s.seg, b)
  {
    hide G.SouthRoute;
  }

  lemma NobodySouth(g: G.Seg, b: nat)
    requires G.MatchSouth(g.conns, b, g.dead) == |g.conns|
    ensures forall c :: c in g.conns ==> !Hit(ServingSouth(b, g.dead), c)
  {
    hide G.MatchSouth;
    forall c | c in g.conns ensures !Hit(ServingSouth(b, g.dead), c) {
      var i :| 0 <= i < |g.conns| && g.conns[i] == c;
    }
  }

  // ---------------------------------------------------------------------------
  // Clients and backends

  /** No client holds back more than the bound. */
  predicate ClientsBounded(c: C.Ctrl) {
    forall n :: 0 <= n < |c.clients| ==> c.clients[n].unsent < MAX_BUFSIZE
  }

  predicate BackendsBounded(g: G.Seg) {
    forall b :: 0 <= b < |g.backends| ==> g.backends[b].unsent < MAX_BUFSIZE
  }

  /** A frame is passed on only if there is room for it. */
  lemma ReplyKeepsRoom(c: C.Ctrl, t: nat, f: Frame)
    requires C.Valid(c) && t < |c.outs| && ClientsBounded(c)
    ensures ClientsBounded(C.SouthRoute(c, t, f))
  {
    hide C.MatchNode, Notify, Touch, StateUpdate, Encode;
  }

  lemma OrderKeepsRoom(g: G.Seg, t: nat, f: Frame)
    requires G.Valid(g) && t < |g.outs| && BackendsBounded(g) && Sendable(f)
    ensures BackendsBounded(G.NorthRoute(g, t, f))
  {
    hide G.MatchKey, StateUpdate, Encode, MakeTimes;
  }

  lemma ClientsKeepRoom(c: C.Ctrl, n: nat, k: nat, t: nat, chunk: seq<byte>, eof: bool)
    requires C.Valid(c) && ClientsBounded(c)
    ensures ClientsBounded(C.ClientRead(c, n, chunk, eof)) && ClientsBounded(C.ClientFlush(c, n, k)) && ClientsBounded(C.NewClient(c))
    ensures ClientsBounded(C.NorthErr(c, n)) && ClientsBounded(C.SouthErr(c, t)) && ClientsBounded(C.ConnectFail(c, t, n))
    ensures ClientsBounded(C.StateHandler(c, n))
  {
    hide Notify, Touch, Drop, C.SessionState;
  }

  lemma RoutesKeepRoom(s: Sys, n: nat, ts: seq<nat>, u: Uuid)
    requires Valid(s) && ClientsBounded(s.ctrl)
    ensures ClientsBounded(DoNorthRoute(s, n, ts, u).ctrl)
  {
    hide C.Refuses, C.AnyHit, C.Connected, Notify, Touch, FanOutHist, ConnectHist, C.NewConns;
  }

  lemma BackendsKeepRoom(g: G.Seg, b: nat, k: nat, chunk: seq<byte>, eof: bool)
    requires G.Valid(g) && BackendsBounded(g)
    ensures BackendsBounded(G.BackendRead(g, b, chunk, eof)) && BackendsBounded(G.BackendFlush(g, b, k)) && BackendsBounded(G.SouthRoute(g, b))
  {
    hide Notify, Touch, Drop, G.MatchSouth, Encode, StateUpdate;
  }

  lemma ControllerKeepsRoom(s: Sys, step: Step)
    requires Valid(s) && ClientsBounded(s.ctrl)
    requires step.NewClient? || step.ClientRead? || step.ClientFlush? || step.NorthRoute? || step.CtrlSouth? || step.NorthErr? || step.NorthState? || step.SouthErr? || step.ConnectFail?
    ensures var s' := Next(s, step); ClientsBounded(s'.ctrl) && s'.seg == s.seg
  {
    hide C.SouthRoute, C.Judge, C.ClientRead, C.ClientFlush, C.NorthErr, C.SouthErr, C.ConnectFail, C.StateHandler, Decode, ClientsBounded, DoNorthRoute, DoCtrlSouth;
    match step
    case NewClient => ClientsKeepRoom(s.ctrl, 0, 0, 0, [], false);
    case ClientRead(n, chunk, eof) => ClientsKeepRoom(s.ctrl, n, 0, 0, chunk, eof);
    case ClientFlush(n, k) => ClientsKeepRoom(s.ctrl, n, k, 0, [], false);
    case NorthErr(n) => ClientsKeepRoom(s.ctrl, n, 0, 0, [], false);
    case NorthState(n) => ClientsKeepRoom(s.ctrl, n, 0, 0, [], false);
    case SouthErr(t) => ClientsKeepRoom(s.ctrl, 0, 0, t, [], false);
    case ConnectFail(t, n) => ClientsKeepRoom(s.ctrl, n, 0, t, [], false);
    case NorthRoute(n, ts, u) => RoutesKeepRoom(s, n, ts, u); RoutesKeepSegment(s, n, ts, u);
    case CtrlSouth(t) => ReceiptKeepsRoom(s, t);
  }

  lemma RoutesKeepSegment(s: Sys, n: nat, ts: seq<nat>, u: Uuid)
    requires Valid(s)
    ensures DoNorthRoute(s, n, ts, u).seg == s.seg
  {
    hide C.Speaks, C.Connects, C.FanOut, C.Connect, FanOutHist, ConnectHist;
  }

  lemma ReceiptKeepsRoom(s: Sys, t: nat)
    requires Valid(s) && ClientsBounded(s.ctrl)
    ensures ClientsBounded(DoCtrlSouth(s, t).ctrl) && DoCtrlSouth(s, t).seg == s.seg
  {
    hide C.SouthRoute, C.Judge, Decode;
    if t < Width(s) && Complete(s.ctrl.ins[t]) {
      ReplyKeepsRoom(s.ctrl, t, Decode(s.ctrl.ins[t]));
    }
  }

  lemma BackendStepsKeepRoom(s: Sys, step: Step)
    requires Valid(s) && BackendsBounded(s.seg) && (step.BackendRead? || step.BackendFlush? || step.SegSouth?)
    ensures var s' := Next(s, step); BackendsBounded(s'.seg) && s'.ctrl == s.ctrl
  {
    hide G.BackendRead, G.BackendFlush, G.SouthRoute, G.Speaks, BackendsBounded;
    match step
    case BackendRead(b, chunk, eof) => BackendsKeepRoom(s.seg, b, 0, chunk, eof);
    case BackendFlush(b, k) => BackendsKeepRoom(s.seg, b, k, [], false);
    case SegSouth(b) => BackendsKeepRoom(s.seg, b, 0, [], false);
  }

  lemma SegmentFailuresKeepRoom(s: Sys, step: Step)
    requires Valid(s) && (step.SegNorthErr? || step.SegSouthErr? || step.SegState? || step.SegConnectFail?)
    ensures var s' := Next(s, step); s'.seg.backends == s.seg.backends && s'.ctrl == s.ctrl
  {
    hide Notify, Touch, Drop, G.MatchSouth;
  }

  lemma SegmentKeepsRoom(s: Sys, t: nat)
    requires Inv(s) && BackendsBounded(s.seg)
    ensures var s' := Next(s, SegNorth(t)); BackendsBounded(s'.seg) && s'.ctrl == s.ctrl
  {
    hide Tables, StreamsOK, FlowsOK, BackendsBounded, DoSegNorth;
    DeliveryKeepsRoom(s, t);
  }

  lemma DeliveryKeepsRoom(s: Sys, t: nat)
    requires Inv(s) && BackendsBounded(s.seg)
    ensures BackendsBounded(DoSegNorth(s, t).seg) && DoSegNorth(s, t).ctrl == s.ctrl
  {
    hide Tables, FlowsOK, StreamOK, G.NorthRoute, G.Judge, Decode;
    if Segments.Arrived(s, t) {
      assert StreamOK(s, t);
      Segments.TakenStreams(s, t, t);
      OrderKeepsRoom(s.seg, t, Decode(s.seg.ins[t]));
    }
  }

  lemma MovesKeepRoom(s: Sys, step: Step)
    requires Valid(s) && (step.Tick? || step.NewTransport? || step.FlushDown? || step.ReadDown? || step.FlushUp? || step.ReadUp?)
    ensures var s' := Next(s, step); s'.ctrl.clients == s.ctrl.clients && s'.seg.backends == s.seg.backends
  {
    hide Pull;
  }

  lemma StepKeepsRoom(s: Sys, step: Step)
    requires Inv(s) && ClientsBounded(s.ctrl) && BackendsBounded(s.seg)
    ensures ClientsBounded(Next(s, step).ctrl) && BackendsBounded(Next(s, step).seg)
  {
    hide Next, Tables, StreamsOK, FlowsOK;
    if step.Tick? || step.NewTransport? || step.FlushDown? || step.ReadDown? || step.FlushUp? || step.ReadUp? {
      MovesKeepRoom(s, step);
    } else if step.SegNorth? {
      SegmentKeepsRoom(s, step.t);
    } else if step.BackendRead? || step.BackendFlush? || step.SegSouth? {
      BackendStepsKeepRoom(s, step);
    } else if step.SegNorthErr? || step.SegSouthErr? || step.SegState? || step.SegConnectFail? {
      SegmentFailuresKeepRoom(s, step);
    } else {
      ControllerKeepsRoom(s, step);
    }
  }

  lemma {:induction false} RunsKeepRoom(s: Sys, steps: seq<Step>)
    requires Inv(s) && ClientsBounded(s.ctrl) && BackendsBounded(s.seg)
    ensures ClientsBounded(Exec(s, steps).ctrl) && BackendsBounded(Exec(s, steps).seg)
    decreases steps
  {
    hide Next, Tables, StreamsOK, FlowsOK, Evolves, ClientsBounded, BackendsBounded;
    if steps != [] {
      NextKeeps(s, steps[0]);
      StepKeepsRoom(s, steps[0]);
      RunsKeepRoom(Next(s, steps[0]), steps[1..]);
    }
  }

  /** In every reachable state, less than 256 MiB wait to be sent to any client and to any backend. */
  lemma UnsentIsBounded(mode: C.Mode, steps: seq<Step>)
    ensures ClientsBounded(Reach(mode, steps).ctrl) && BackendsBounded(Reach(mode, steps).seg)
  {
    hide Exec, Inv;
    InvStart(mode);
    RunsKeepRoom(Start(mode), steps);
  }
}
