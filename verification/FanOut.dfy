/** One-to-N fan-out: what a client's chunk becomes, and what backpressure does to it. */
module FanOut {
  import opened Frames
  import opened Connections
  import opened System
  import opened Reassembly
  import opened Invariant
  import opened Theorems
  import Steps = ControllerSteps
  import F = Flow
  import C = Controller
  import G = Segment

  /** The client has a connection whose transport is alive. */
  predicate HasSession(s: Sys, n: nat) {
    C.Connected(s.ctrl.conns, n, s.ctrl.dead)
  }

  /** What routing a client's news does to connection `k`: nothing if it is refused; otherwise one frame with exactly
      the chunk if the connection still serves the client, and no frame if not. */
  predicate ForAllOrNone(s: Sys, s': Sys, n: nat, k: Key)
    requires Inv(s) && Inv(s') && k in s.hist && k in s'.hist && n < |s.ctrl.clients|
  {
    var f, f' := FlowOf(s, k), FlowOf(s', k);
    if C.Refuses(s.ctrl.conns, s.ctrl.outs, n, s.ctrl.dead, |s.ctrl.clients[n].pend|) then s' == s
    else if s.hist[k].client == n && F.Serving(f) then
      && f'.down == f.down + [Frame(k.u, Steps.Spoken(s.ctrl.clients[n]), 0, f.pend)]
      && f'.sent == f.sent + f.pend && f'.pend == []
    else f'.down == f.down && f'.sent == f.sent
  }

  /** All or nothing: a chunk (or end of file) of a client with a session is either refused, and then nothing
      at all changes, so that the same bytes are offered again; or every connection that still
      serves the client gets exactly one frame with exactly that chunk, and no other connection gets anything. */
  lemma AllOrNothing(s: Sys, n: nat, ts: seq<nat>, u: Uuid, k: Key)
    requires Inv(s) && n < |s.ctrl.clients| && C.HasNews(s.ctrl.clients[n]) && HasSession(s, n) && k in s.hist
    ensures var s' := Next(s, NorthRoute(n, ts, u));
      Inv(s') && k in s'.hist && ForAllOrNone(s, s', n, k)
  {
    hide F.Sound, F.Later, FlowOf, StreamsOK, Tables, FlowsOK, Evolves, C.Refuses, C.FanOut, NextState, Served;
    if C.Speaks(s.ctrl, n) {
      Steps.FanOutKeeps(s, n);
      Steps.FanOutFlow(s, n, k);
      Steps.ServedMeansServing(s, n, k);
    }
  }

  /** The chunk of client `n`, and what was read from it, are the same. */
  predicate Holds(c: C.Ctrl, c': C.Ctrl, n: nat)
    requires n < |c.clients|
  {
    n < |c'.clients| && c'.clients[n].pend == c.clients[n].pend && c'.clients[n].read == c.clients[n].read
  }

  lemma RepliesHold(c: C.Ctrl, t: nat, f: Frame, n: nat)
    requires C.Valid(c) && t < |c.outs| && n < |c.clients|
    ensures Holds(c, C.SouthRoute(c, t, f), n)
  {
    hide C.MatchNode, Notify, Touch, StateUpdate;
  }

  lemma ReceiptHolds(s: Sys, t: nat, n: nat)
    requires Valid(s) && n < |s.ctrl.clients|
    ensures Holds(s.ctrl, Next(s, CtrlSouth(t)).ctrl, n)
  {
    hide C.SouthRoute, C.Judge, Decode;
    if t < Width(s) && Complete(s.ctrl.ins[t]) {
      RepliesHold(s.ctrl, t, Decode(s.ctrl.ins[t]), n);
    }
  }

  lemma MovesHold(s: Sys, step: Step, n: nat)
    requires Valid(s) && n < |s.ctrl.clients| && (step.FlushDown? || step.ReadDown? || step.FlushUp? || step.ReadUp?)
    ensures Holds(s.ctrl, Next(s, step).ctrl, n)
  {
    hide Pull;
  }

  lemma FailuresHold(s: Sys, t: nat, m: nat, n: nat)
    requires Valid(s) && n < |s.ctrl.clients|
    ensures Holds(s.ctrl, Next(s, NorthErr(m)).ctrl, n) && Holds(s.ctrl, Next(s, SouthErr(t)).ctrl, n)
    ensures Holds(s.ctrl, Next(s, ConnectFail(t, m)).ctrl, n) && Holds(s.ctrl, Next(s, NorthState(m)).ctrl, n)
  {
    hide C.NorthErr, C.SouthErr, C.ConnectFail, C.StateHandler, Holds;
    HandlersHold(s.ctrl, t, m, n);
  }

  lemma HandlersHold(c: C.Ctrl, t: nat, m: nat, n: nat)
    requires C.Valid(c) && n < |c.clients|
    ensures Holds(c, C.NorthErr(c, m), n) && Holds(c, C.SouthErr(c, t), n)
    ensures Holds(c, C.ConnectFail(c, t, m), n) && Holds(c, C.StateHandler(c, m), n)
  {
    hide Notify, Touch, Drop, C.SessionState;
  }

  lemma RoutesHold(s: Sys, m: nat, ts: seq<nat>, u: Uuid, n: nat)
    requires Valid(s) && n < |s.ctrl.clients| && (m == n ==> !C.Speaks(s.ctrl, n))
    ensures Holds(s.ctrl, Next(s, NorthRoute(m, ts, u)).ctrl, n)
  {
    hide C.Refuses, C.AnyHit, Notify, Touch, C.Connected, FanOutHist, ConnectHist;
  }

  /** The segment and the backends do not touch the controller. */
  lemma SegmentHolds(s: Sys, step: Step, n: nat)
    requires Valid(s) && n < |s.ctrl.clients|
    requires step.SegNorth? || step.SegSouth? || step.SegNorthErr? || step.SegSouthErr? || step.SegState? || step.SegConnectFail? || step.BackendRead? || step.BackendFlush?
    ensures Holds(s.ctrl, Next(s, step).ctrl, n)
  {
    hide G.NorthRoute, G.SouthRoute, G.Judge, G.NorthErr, G.SouthErr, G.StateHandler, G.ConnectFail, G.BackendRead, G.BackendFlush, Decode;
  }

  /** Nothing more is read from a client whose chunk is held back. */
  lemma ClientsHold(s: Sys, step: Step, n: nat)
    requires Valid(s) && n < |s.ctrl.clients| && s.ctrl.clients[n].pend != []
    requires step.ClientRead? || step.ClientFlush? || step.NewClient? || step.NewTransport? || step.Tick?
    ensures Holds(s.ctrl, Next(s, step).ctrl, n)
  {
  }

  /** Nothing but a route of client `n` that is not refused takes a chunk that is held back, and nothing adds to it. */
  lemma HeldBack(s: Sys, step: Step, n: nat)
    requires Valid(s) && n < |s.ctrl.clients| && s.ctrl.clients[n].pend != []
    requires step.NorthRoute? && step.n == n ==> !C.Speaks(s.ctrl, n)
    ensures Holds(s.ctrl, Next(s, step).ctrl, n)
  {
    hide Next, Holds, C.Speaks;
    match step
    case CtrlSouth(t) => ReceiptHolds(s, t, n);
    case FlushDown(_, _) => MovesHold(s, step, n);
    case FlushUp(_, _) => MovesHold(s, step, n);
    case ReadDown(_, _) => MovesHold(s, step, n);
    case ReadUp(_, _) => MovesHold(s, step, n);
    case NorthErr(m) => FailuresHold(s, 0, m, n);
    case NorthState(m) => FailuresHold(s, 0, m, n);
    case SouthErr(t) => FailuresHold(s, t, 0, n);
    case ConnectFail(t, m) => FailuresHold(s, t, m, n);
    case NorthRoute(m, ts, u) => RoutesHold(s, m, ts, u, n);
    case ClientRead(_, _, _) => ClientsHold(s, step, n);
    case ClientFlush(_, _) => ClientsHold(s, step, n);
    case NewClient => ClientsHold(s, step, n);
    case NewTransport => ClientsHold(s, step, n);
    case Tick(_) => ClientsHold(s, step, n);
    case _ => SegmentHolds(s, step, n);
  }

  /** Some step of the run frames the client's chunk. */
  predicate Framed(s: Sys, steps: seq<Step>, n: nat)
    requires Valid(s)
    decreases steps
  {
    steps != [] && ((steps[0].NorthRoute? && steps[0].n == n && C.Speaks(s.ctrl, n)) || Framed(Next(s, steps[0]), steps[1..], n))
  }

  /** A refused chunk is retried byte for byte: however long the run, until a route of the client succeeds the
      chunk stays as it is and no further byte is read from the client. */
  lemma {:induction false} HeldBackUntilSent(s: Sys, steps: seq<Step>, n: nat)
    requires Valid(s) && n < |s.ctrl.clients| && s.ctrl.clients[n].pend != [] && !Framed(s, steps, n)
    ensures Holds(s.ctrl, Exec(s, steps).ctrl, n)
    decreases steps
  {
    hide Next;
    if steps != [] {
      HeldBack(s, steps[0], n);
      HeldBackUntilSent(Next(s, steps[0]), steps[1..], n);
    }
  }
}
