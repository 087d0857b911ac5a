/** A controller, a segment and the transports between them, as one state machine.

    Any number of transports join the two sides; the segment side stands for all
    segments, since its connections are keyed by transport.  Bytes written to a
    transport pass through the sender's pending buffer, the kernel and the
    receiver's reassembly buffer; each may hold any part of a frame. */
module System {
  import opened Frames
  import opened Connections
  import opened Reassembly
  import C = Controller
  import G = Segment

  /** What happened on connection `k` since it was made, kept for stating properties:
      its client and how much had been read from it before the session opened, the payload
      framed towards the backend and towards the client, and the backend stream, once made. */
  datatype Hist = Hist(client: nat, open: int, sent: seq<byte>, framed: seq<byte>, backend: Option<nat>)

  datatype Sys = Sys(ctrl: C.Ctrl, seg: G.Seg, downWire: seq<seq<byte>>, upWire: seq<seq<byte>>, hist: map<Key, Hist>)

  predicate Valid(s: Sys) {
    && C.Valid(s.ctrl) && G.Valid(s.seg)
    && |s.ctrl.outs| == |s.seg.outs| == |s.downWire| == |s.upWire|
  }

  function Width(s: Sys): nat {
    |s.ctrl.outs|
  }

  function Start(mode: C.Mode): Sys {
    Sys(C.Ctrl(mode, [], [], [], [], {}, 0), G.Seg([], [], [], [], {}, 0), [], [], map[])
  }

  datatype Step =
    | Tick(d: nat)
    | NewClient
    | NewTransport
    | ClientRead(n: nat, chunk: seq<byte>, eof: bool)
    | ClientFlush(n: nat, k: nat)
    | NorthRoute(n: nat, ts: seq<nat>, u: Uuid)
    | FlushDown(t: nat, k: nat)
    | ReadDown(t: nat, k: nat)
    | SegNorth(t: nat)
    | BackendRead(b: nat, chunk: seq<byte>, eof: bool)
    | BackendFlush(b: nat, k: nat)
    | SegSouth(b: nat)
    | FlushUp(t: nat, k: nat)
    | ReadUp(t: nat, k: nat)
    | CtrlSouth(t: nat)
    | NorthErr(n: nat)
    | NorthState(n: nat)
    | SouthErr(t: nat)
    | ConnectFail(t: nat, n: nat)
    | SegNorthErr(t: nat)
    | SegSouthErr(b: nat)
    | SegState(b: nat)
    | SegConnectFail(b: nat)

  // ---------------------------------------------------------------------------
  // Bytes and frames in flight

  function DownBytes(s: Sys, t: nat): seq<byte>
    requires Valid(s) && t < Width(s)
  {
    s.seg.ins[t] + (s.downWire[t] + s.ctrl.outs[t])
  }

  function UpBytes(s: Sys, t: nat): seq<byte>
    requires Valid(s) && t < Width(s)
  {
    s.ctrl.ins[t] + (s.upWire[t] + s.seg.outs[t])
  }

  /** The frames on their way from the controller to the segment on transport `t`. */
  function DownQ(s: Sys, t: nat): seq<Frame>
    requires Valid(s) && t < Width(s)
  {
    Parse(DownBytes(s, t))
  }

  function UpQ(s: Sys, t: nat): seq<Frame>
    requires Valid(s) && t < Width(s)
  {
    Parse(UpBytes(s, t))
  }

  // ---------------------------------------------------------------------------
  // The history variables

  predicate Served(s: Sys, n: nat, k: Key) {
    var c := Find(s.ctrl.conns, AtController, k);
    c.Some? && Hit(ServingNorth(n, s.ctrl.dead), c.value)
  }

  function FanOutHist(s: Sys, n: nat): map<Key, Hist>
    requires n < |s.ctrl.clients|
  {
    map k | k in s.hist :: if Served(s, n, k) then s.hist[k].(sent := s.hist[k].sent + s.ctrl.clients[n].pend) else s.hist[k]
  }

  function NewKeys(mode: C.Mode, u: Uuid, ts: seq<nat>): set<Key> {
    set i | 0 <= i < |ts| :: Key(ts[i], C.UuidAt(mode, u, i))
  }

  /** The histories of the connections a client's first chunk makes. */
  function ConnectHist(c: C.Ctrl, n: nat, ts: seq<nat>, u: Uuid): map<Key, Hist>
    requires C.Valid(c) && n < |c.clients|
    requires forall i :: 0 <= i < |ts| ==> ts[i] < |c.outs|
  {
    var cl := c.clients[n];
    var refused := C.Refuses(C.NewConns(c.mode, u, n, ts, c.now), c.outs, n, c.dead, |cl.pend|);
    map k | k in NewKeys(c.mode, u, ts) :: Hist(n, |cl.read| - |cl.pend|, if refused then [] else cl.pend, [], None)
  }

  /** What is assumed of the environment when a session opens: one live transport for each
      backend, a UUID whose node bytes are new, and a fan-out the constructor would allow. */
  predicate MayConnect(s: Sys, ts: seq<nat>, u: Uuid) {
    && (forall i :: 0 <= i < |ts| ==> ts[i] < Width(s) && ts[i] !in s.ctrl.dead)
    && (forall i, j :: 0 <= i < j < |ts| ==> ts[i] != ts[j])
    && (forall k :: k in s.hist ==> Node(k.u) != Node(u))
    && (s.ctrl.mode.FULL_DUPLEX? ==> |ts| <= 63)
  }

  // ---------------------------------------------------------------------------
  // Steps

  function DoNorthRoute(s: Sys, n: nat, ts: seq<nat>, u: Uuid): (s': Sys)
    requires Valid(s)
    ensures Valid(s')
  {
    if !C.Speaks(s.ctrl, n) then s
    else if !C.Connects(s.ctrl, n) then s.(ctrl := C.FanOut(s.ctrl, n), hist := FanOutHist(s, n))
    else if MayConnect(s, ts, u) then
      var c := C.FanOut(s.ctrl, n);
      s.(ctrl := C.Connect(c, n, ts, u), hist := FanOutHist(s, n) + ConnectHist(c, n, ts, u))
    else s
  }

  function DoSegNorth(s: Sys, t: nat): (s': Sys)
    requires Valid(s)
    ensures Valid(s')
  {
    if t < Width(s) && t !in s.seg.dead && Complete(s.seg.ins[t]) then
      var f := Decode(s.seg.ins[t]);
      var v := G.Judge(s.seg, t, f);
      if v.Block? then s else
      var g := G.NorthRoute(s.seg, t, f);
      var k := Key(t, f.eid);
      s.(seg := g.(ins := g.ins[t := []]),
         hist := if v.Open? && k in s.hist then s.hist[k := s.hist[k].(backend := Some(|s.seg.backends|))] else s.hist)
    else s
  }

  function DoSegSouth(s: Sys, b: nat): (s': Sys)
    requires Valid(s)
    ensures Valid(s')
  {
    var k := if b < |s.seg.backends| then s.seg.backends[b].key else Key(0, seq(16, i => 0 as byte));
    s.(seg := G.SouthRoute(s.seg, b),
       hist := if G.Speaks(s.seg, b) && k in s.hist
         then s.hist[k := s.hist[k].(framed := s.hist[k].framed + s.seg.backends[b].pend)] else s.hist)
  }

  function DoCtrlSouth(s: Sys, t: nat): (s': Sys)
    requires Valid(s)
    ensures Valid(s')
  {
    if t < Width(s) && t !in s.ctrl.dead && Complete(s.ctrl.ins[t]) then
      var f := Decode(s.ctrl.ins[t]);
      if C.Judge(s.ctrl, t, f).Block? then s else
      var c := C.SouthRoute(s.ctrl, t, f);
      s.(ctrl := c.(ins := c.ins[t := []]))
    else s
  }

  function DoMove(s: Sys, step: Step): (s': Sys)
    requires Valid(s)
    requires step.FlushDown? || step.ReadDown? || step.FlushUp? || step.ReadUp?
    ensures Valid(s')
  {
    if step.t >= Width(s) then s else
    var t := step.t;
    match step
    case FlushDown(_, k) =>
      var out := s.ctrl.outs[t];
      if t in s.ctrl.dead || k > |out| then s else
      s.(ctrl := s.ctrl.(outs := s.ctrl.outs[t := out[k..]]), downWire := s.downWire[t := s.downWire[t] + out[..k]])
    case FlushUp(_, k) =>
      var out := s.seg.outs[t];
      if t in s.seg.dead || k > |out| then s else
      s.(seg := s.seg.(outs := s.seg.outs[t := out[k..]]), upWire := s.upWire[t := s.upWire[t] + out[..k]])
    case ReadDown(_, k) =>
      var wire := s.downWire[t];
      if t in s.seg.dead || k > |wire| then s else
      var n := Pull(s.seg.ins[t], wire[..k]);
      s.(seg := s.seg.(ins := s.seg.ins[t := s.seg.ins[t] + wire[..n]]), downWire := s.downWire[t := wire[n..]])
    case ReadUp(_, k) =>
      var wire := s.upWire[t];
      if t in s.ctrl.dead || k > |wire| then s else
      var n := Pull(s.ctrl.ins[t], wire[..k]);
      s.(ctrl := s.ctrl.(ins := s.ctrl.ins[t := s.ctrl.ins[t] + wire[..n]]), upWire := s.upWire[t := wire[n..]])
  }

  function DoNewTransport(s: Sys): (s': Sys)
    requires Valid(s)
    ensures Valid(s')
  {
    s.(ctrl := s.ctrl.(outs := s.ctrl.outs + [[]], ins := s.ctrl.ins + [[]]),
       seg := s.seg.(outs := s.seg.outs + [[]], ins := s.seg.ins + [[]]),
       downWire := s.downWire + [[]], upWire := s.upWire + [[]])
  }

  /** One step of the system; a step that is not enabled changes nothing. */
  function Next(s: Sys, step: Step): (s': Sys)
    requires Valid(s)
    ensures Valid(s')
  {
    match step
    case Tick(d) => s.(ctrl := s.ctrl.(now := s.ctrl.now + d), seg := s.seg.(now := s.seg.now + d))
    case NewClient => s.(ctrl := C.NewClient(s.ctrl))
    case NewTransport => DoNewTransport(s)
    case ClientRead(n, chunk, eof) => s.(ctrl := C.ClientRead(s.ctrl, n, chunk, eof))
    case ClientFlush(n, k) => s.(ctrl := C.ClientFlush(s.ctrl, n, k))
    case NorthRoute(n, ts, u) => DoNorthRoute(s, n, ts, u)
    case FlushDown(_, _) => DoMove(s, step)
    case ReadDown(_, _) => DoMove(s, step)
    case SegNorth(t) => DoSegNorth(s, t)
    case BackendRead(b, chunk, eof) => s.(seg := G.BackendRead(s.seg, b, chunk, eof))
    case BackendFlush(b, k) => s.(seg := G.BackendFlush(s.seg, b, k))
    case SegSouth(b) => DoSegSouth(s, b)
    case FlushUp(_, _) => DoMove(s, step)
    case ReadUp(_, _) => DoMove(s, step)
    case CtrlSouth(t) => DoCtrlSouth(s, t)
    case NorthErr(n) => s.(ctrl := C.NorthErr(s.ctrl, n))
    case NorthState(n) => s.(ctrl := C.StateHandler(s.ctrl, n))
    case SouthErr(t) => s.(ctrl := C.SouthErr(s.ctrl, t))
    case ConnectFail(t, n) => s.(ctrl := C.ConnectFail(s.ctrl, t, n))
    case SegNorthErr(t) => s.(seg := G.NorthErr(s.seg, t))
    case SegSouthErr(b) => s.(seg := G.SouthErr(s.seg, b))
    case SegState(b) => s.(seg := G.StateHandler(s.seg, b))
    case SegConnectFail(b) => s.(seg := G.ConnectFail(s.seg, b))
  }

  /** A whole run. */
  function Exec(s: Sys, steps: seq<Step>): (s': Sys)
    requires Valid(s)
    ensures Valid(s')
    decreases steps
  {
    if steps == [] then s else Exec(Next(s, steps[0]), steps[1..])
  }
}
