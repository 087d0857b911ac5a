/** What every run guarantees. */
module Theorems {
  import opened Frames
  import opened Connections
  import opened System
  import opened Invariant
  import Steps = ControllerSteps
  import Replies = ControllerReplies
  import Segments = SegmentSteps
  import F = Flow
  import C = Controller

  /** Every step keeps the invariant, and takes no connection back. */
  lemma NextKeeps(s: Sys, step: Step)
    requires Inv(s)
    ensures Inv(Next(s, step)) && Evolves(s, Next(s, step))
  {
    hide Inv, Evolves, Next;
    match step
    case Tick(d) => TickKeeps(s, d);
    case NewClient => NewClientKeeps(s);
    case NewTransport => NewTransportKeeps(s);
    case ClientRead(n, chunk, eof) => ClientReadKeeps(s, n, chunk, eof);
    case ClientFlush(n, k) => ClientFlushKeeps(s, n, k);
    case NorthRoute(n, ts, u) => Steps.NorthRouteKeeps(s, n, ts, u);
    case FlushDown(t, k) => FlushDownKeeps(s, t, k);
    case ReadDown(t, k) => ReadDownKeeps(s, t, k);
    case SegNorth(t) => Segments.SegNorthKeeps(s, t);
    case BackendRead(b, chunk, eof) => BackendReadKeeps(s, b, chunk, eof);
    case BackendFlush(b, k) => BackendFlushKeeps(s, b, k);
    case SegSouth(b) => Segments.SegSouthKeeps(s, b);
    case FlushUp(t, k) => FlushUpKeeps(s, t, k);
    case ReadUp(t, k) => ReadUpKeeps(s, t, k);
    case CtrlSouth(t) => Replies.CtrlSouthKeeps(s, t);
    case NorthErr(n) => Replies.NorthErrStepKeeps(s, n);
    case NorthState(n) => Replies.NorthStateKeeps(s, n);
    case SouthErr(t) => Replies.SouthErrKeeps(s, t);
    case ConnectFail(t, n) => Replies.ConnectFailKeeps(s, t, n);
    case SegNorthErr(t) => Segments.NorthErrKeeps(s, t);
    case SegSouthErr(b) => Segments.SouthErrStepKeeps(s, b);
    case SegState(b) => Segments.StateKeeps(s, b);
    case SegConnectFail(b) => Segments.ConnectFailKeeps(s, b);
  }

  lemma {:induction false} ExecKeeps(s: Sys, steps: seq<Step>)
    requires Inv(s)
    ensures Inv(Exec(s, steps)) && Evolves(s, Exec(s, steps))
    decreases steps
  {
    hide Tables, StreamsOK, FlowsOK, Evolves, Next;
    if steps == [] {
      EvolvesSelf(s);
    } else {
      NextKeeps(s, steps[0]);
      ExecKeeps(Next(s, steps[0]), steps[1..]);
      EvolvesTransitive(s, Next(s, steps[0]), Exec(s, steps));
    }
  }

  /** A state some run from the start leads to. */
  function Reach(mode: C.Mode, steps: seq<Step>): (s: Sys)
    ensures Valid(s)
  {
    Exec(Start(mode), steps)
  }

  lemma Reachable(mode: C.Mode, steps: seq<Step>)
    ensures Inv(Reach(mode, steps))
  {
    hide Inv;
    InvStart(mode);
    ExecKeeps(Start(mode), steps);
  }

  /** The bytes read from the session's client since the session opened. */
  function SinceOpened(s: Sys, k: Key): seq<byte>
    requires k in s.hist && InRange(s, k)
  {
    s.ctrl.clients[s.hist[k].client].read[s.hist[k].open..]
  }

  /** Client to backend, for every run, any interleaving of sessions on shared transports and any
      chunking: each backend stream belongs to exactly one connection, and what was written to
      it is a prefix of what was read from that connection's client since the session opened. */
  lemma ClientToBackend(mode: C.Mode, steps: seq<Step>, b: nat)
    requires b < |Reach(mode, steps).seg.backends|
    ensures var s := Reach(mode, steps);
      var k := s.seg.backends[b].key;
      && k in s.hist && InRange(s, k) && s.hist[k].backend == Some(b)
      && s.seg.backends[b].written <= SinceOpened(s, k)
  {
    var s := Reach(mode, steps);
    Reachable(mode, steps);
    PrefixDown(s, s.seg.backends[b].key);
  }

  lemma PrefixDown(s: Sys, k: Key)
    requires Inv(s) && k in s.hist
    ensures InRange(s, k) && BackendOf(s, k).written <= SinceOpened(s, k)
  {
    hide Find, Proj, Parse, Got, StreamOK, NodesOK, CtrlOK, SegOK, ClientsOK, F.SoundUp, F.Opening, F.Opened;
    var f := FlowOf(s, k);
    assert F.Sound(f);
    assert f.delivered <= f.sent <= f.since;
  }

  /** Nothing is lost: while both ends keep the connection open, what the backend was given, what
      is in flight to it and what waits in the marshaller are together exactly what the client sent. */
  lemma ClientToBackendConserved(mode: C.Mode, steps: seq<Step>, k: Key)
    requires k in Reach(mode, steps).hist
    ensures var s := Reach(mode, steps);
      && InRange(s, k)
      && var c, g := Find(s.ctrl.conns, AtController, k), Find(s.seg.conns, AtSegment, k);
      var cl := s.ctrl.clients[s.hist[k].client];
      c.Some? && c.value.state != CLOSED && cl.alive && g.Some? && g.value.state != CLOSED ==>
        BackendOf(s, k).written + Payload(Proj(DownQ(s, k.t), k.u)) + cl.pend == SinceOpened(s, k)
  {
    hide Find, Proj, Parse, Got, StreamOK, NodesOK, SegOK, ClientsOK, F.SoundUp, Lawful;
    var s := Reach(mode, steps);
    Reachable(mode, steps);
    var f := FlowOf(s, k);
    assert F.Sound(f);
    if Find(s.ctrl.conns, AtController, k).Some? {
      LiveEntry(s, k);
    }
  }

  lemma LiveEntry(s: Sys, k: Key)
    requires CtrlOK(s) && Find(s.ctrl.conns, AtController, k).Some?
    ensures Find(s.ctrl.conns, AtController, k).value.state != CLOSED ==> k.t !in s.ctrl.dead
  {
    hide Find, Lawful;
  }

  /** Backend to client, for every run: what a client was given by a connection is a prefix of what
      was read from that connection's backend. */
  lemma BackendToClient(mode: C.Mode, steps: seq<Step>, k: Key)
    requires k in Reach(mode, steps).hist
    ensures var s := Reach(mode, steps);
      InRange(s, k) && Got(s.ctrl.clients[s.hist[k].client].log, k) <= BackendOf(s, k).read
  {
    hide Find, Proj, Parse, Got, StreamOK, NodesOK, CtrlOK, SegOK, ClientsOK, F.SoundDown, F.StopIsFinal;
    var s := Reach(mode, steps);
    Reachable(mode, steps);
    var f := FlowOf(s, k);
    assert F.Sound(f);
    assert f.got <= f.framed <= f.bRead;
  }

  /** While the controller passes replies on and the segment keeps its entry, nothing a backend said
      is lost -- in particular not by the rule that drops frames of a connection that has seen STOP. */
  lemma BackendToClientConserved(mode: C.Mode, steps: seq<Step>, k: Key)
    requires k in Reach(mode, steps).hist
    ensures var s := Reach(mode, steps);
      && InRange(s, k)
      && var c, g := Find(s.ctrl.conns, AtController, k), Find(s.seg.conns, AtSegment, k);
      var cl := s.ctrl.clients[s.hist[k].client];
      c.Some? && c.value.state != CLOSED && cl.alive && g.Some? ==>
        Got(cl.log, k) + Payload(Proj(UpQ(s, k.t), k.u)) + BackendOf(s, k).pend == BackendOf(s, k).read
  {
    hide Find, Proj, Parse, Got, StreamOK, NodesOK, CtrlOK, SegOK, ClientsOK, F.SoundDown, F.StopIsFinal;
    var s := Reach(mode, steps);
    Reachable(mode, steps);
    assert F.Sound(FlowOf(s, k));
  }

  /** No leakage: every piece of a client's stream came over a connection made for that client. */
  lemma ClientStreamIsMerge(mode: C.Mode, steps: seq<Step>, n: nat)
    requires n < |Reach(mode, steps).ctrl.clients|
    ensures var s := Reach(mode, steps);
      forall p :: p in s.ctrl.clients[n].log ==> p.from in s.hist && s.hist[p.from].client == n
  {
    var s := Reach(mode, steps);
    Reachable(mode, steps);
    assert ClientOK(s.hist, n, s.ctrl.clients[n]);
    forall p | p in s.ctrl.clients[n].log ensures p.from in s.hist && s.hist[p.from].client == n {
      assert PieceOK(s.hist, n, p);
    }
  }

  /** Once a segment has reported the end of a backend, nothing but empty frames follows on that UUID. */
  lemma NothingFollowsStop(mode: C.Mode, steps: seq<Step>, k: Key, i: nat, j: nat)
    requires var s := Reach(mode, steps);
      && k in s.hist && k.t < Width(s) && i < j < |Proj(UpQ(s, k.t), k.u)|
      && IsStop(Proj(UpQ(s, k.t), k.u)[i]) && !IsAbort(Proj(UpQ(s, k.t), k.u)[i])
    ensures Proj(UpQ(Reach(mode, steps), k.t), k.u)[j].payload == []
    ensures InRange(Reach(mode, steps), k) && BackendOf(Reach(mode, steps), k).eof && BackendOf(Reach(mode, steps), k).pend == []
  {
    hide Find, Proj, Parse, Got, StreamOK, NodesOK, CtrlOK, SegOK, ClientsOK, F.SoundDown;
    var s := Reach(mode, steps);
    Reachable(mode, steps);
    assert F.Sound(FlowOf(s, k));
  }

  /** Both directions of every transport always hold complete frames and nothing else, whatever handler
      wrote them; no frame's 16-bit length field wraps, and each frame is for a connection made on that transport. */
  lemma WiresHoldFrames(mode: C.Mode, steps: seq<Step>, t: nat)
    requires t < Width(Reach(mode, steps))
    ensures var s := Reach(mode, steps);
      && EncodeAll(DownQ(s, t)) == DownBytes(s, t) && EncodeAll(UpQ(s, t)) == UpBytes(s, t)
      && (forall f :: f in DownQ(s, t) || f in UpQ(s, t) ==> LenOf(Encode(f)) == HDRLEN + |f.payload| && Key(t, f.eid) in s.hist)
  {
    hide Encode, EncodeAll, Parse, Tables, FlowsOK;
    var s := Reach(mode, steps);
    Reachable(mode, steps);
    assert StreamOK(s, t);
    ParsedFramesAreSendable(DownBytes(s, t));
    ParsedFramesAreSendable(UpBytes(s, t));
    forall f | f in DownQ(s, t) || f in UpQ(s, t) ensures LenOf(Encode(f)) == HDRLEN + |f.payload| {
      EncodeIsFaithful(f);
    }
  }

  /** Over any stretch of a run, a connection's states only advance, CLOSED and forgotten are for good,
      and a connection that is closed or forgotten carries no payload either way. */
  lemma StatesOnlyAdvance(mode: C.Mode, steps: seq<Step>, more: seq<Step>, k: Key)
    requires k in Reach(mode, steps).hist
    ensures var s := Reach(mode, steps);
      var s' := Exec(s, more);
      && k in s'.hist && InRange(s, k) && InRange(s', k)
      && var c, c' := StateOf(Find(s.ctrl.conns, AtController, k)), StateOf(Find(s'.ctrl.conns, AtController, k));
      && (c'.Some? ==> c.Some? && c.value <= c'.value)
      && (c.None? || c.value == CLOSED ==>
            && s'.hist[k].sent == s.hist[k].sent
            && Got(s'.ctrl.clients[s'.hist[k].client].log, k) == Got(s.ctrl.clients[s.hist[k].client].log, k))
  {
    hide F.Sound, Find, Proj, Parse, Got, StreamsOK, NodesOK, CtrlOK, SegOK, ClientsOK, BackendsOK, NewNodes;
    var s := Reach(mode, steps);
    Reachable(mode, steps);
    ExecKeeps(s, more);
    assert F.Later(FlowOf(s, k), FlowOf(Exec(s, more), k));
  }

  /** In every reachable state, the timestamps of a connection up to its state are set in order, and its
      completion has been recorded once if it is CLOSED and not at all otherwise. */
  lemma ConnectionsAreLawful(mode: C.Mode, steps: seq<Step>, c: Conn)
    requires c in Reach(mode, steps).ctrl.conns
    ensures Lawful(c, Reach(mode, steps).ctrl.now)
  {
    hide Lawful;
    Reachable(mode, steps);
  }

  /** The state handler removes a client, and sends no ABORT, exactly when all its connections are CLOSED. */
  lemma StateHandlerIsLast(mode: C.Mode, steps: seq<Step>, n: nat)
    requires n < |Reach(mode, steps).ctrl.clients| && Reach(mode, steps).ctrl.clients[n].alive
    ensures var s := Reach(mode, steps);
      var s' := Next(s, NorthState(n));
      && (!s'.ctrl.clients[n].alive <==> forall c :: c in s.ctrl.conns && c.north == n ==> c.state == CLOSED)
      && s'.ctrl.outs == s.ctrl.outs
  {
    var s := Reach(mode, steps);
    C.SessionStateMeaning(s.ctrl.conns, n);
    if C.SessionState(s.ctrl.conns, n) == CLOSED {
      NotifyNobody(s.ctrl.outs, s.ctrl.conns, AtController, ServingNorth(n, s.ctrl.dead), STOP, ABORT, []);
    }
  }
}
