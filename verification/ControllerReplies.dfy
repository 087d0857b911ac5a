/** The controller's remaining handlers -- replies, latching, teardown -- keep the invariant. */
module ControllerReplies {
  import opened Frames
  import opened Connections
  import opened Reassembly
  import opened System
  import opened Invariant
  import opened Streams
  import opened ControllerSteps
  import F = Flow
  import C = Controller

  // ---------------------------------------------------------------------------
  // Closing, aborting, forgetting

  /** The controller aborted the selected connections, and touched nothing outside its table and clients. */
  predicate Aborted(s: Sys, s': Sys, sel: Sel)
    requires Valid(s)
  {
    && Valid(s') && s' == s.(ctrl := s'.ctrl)
    && s'.ctrl == s.ctrl.(conns := s'.ctrl.conns, clients := s'.ctrl.clients, outs := s'.ctrl.outs, dead := s'.ctrl.dead)
    && s'.ctrl.outs == Notify(s.ctrl.outs, s.ctrl.conns, AtController, sel, STOP, ABORT, [])
    && s.ctrl.dead <= s'.ctrl.dead
    && |s'.ctrl.clients| == |s.ctrl.clients|
    && forall n :: 0 <= n < |s.ctrl.clients| ==>
        s'.ctrl.clients[n] == s.ctrl.clients[n] || s'.ctrl.clients[n] == s.ctrl.clients[n].(alive := false)
  }

  lemma AbortedStreams(s: Sys, s': Sys, sel: Sel, t: nat)
    requires Valid(s) && CtrlOK(s) && Aborted(s, s', sel) && t < Width(s) && StreamOK(s, t)
    ensures StreamOK(s', t) && UpQ(s', t) == UpQ(s, t)
    ensures DownQ(s', t) == DownQ(s, t) + Addressed(s.ctrl.conns, AtController, sel, STOP, ABORT, [], t)
  {
    hide FrameStream, Parse, EncodeAll, Addressed, StreamOK, CtrlOK;
    ConnsRegistered(s);
    NotifyDown(s, s', s.ctrl.conns, sel, STOP, ABORT, [], t);
  }

  /** Seen from one connection. */
  lemma AbortedFlow(s: Sys, s': Sys, sel: Sel, k: Key)
    requires Inv(s) && Aborted(s, s', sel) && k in s.hist
    requires var c, c' := StateOf(Find(s.ctrl.conns, AtController, k)), StateOf(Find(s'.ctrl.conns, AtController, k));
      c' == c || c' == None || (c.Some? && c' == Some(CLOSED))
    ensures InRange(s', k) && F.Keeps(FlowOf(s, k), FlowOf(s', k))
  {
    hide F.Sound, F.Later, NodesOK, FrameStream, Parse, EncodeAll, Addressed, Find, Proj, Got, StreamOK, SegOK, ClientsOK, BackendsOK, CtrlOK, Hit;
    assert InRange(s, k) && StreamOK(s, k.t);
    ConnsRegistered(s);
    AbortedStreams(s, s', sel, k.t);
    ShareOf(DownQ(s, k.t), s.ctrl.conns, AtController, sel, STOP, ABORT, [], k);
    var f, f' := FlowOf(s, k), FlowOf(s', k);
    if f'.down != f.down + [AbortFrame(k.u)] {
      assert f'.down == f.down;
    }
    assert f' == f.(conn := f'.conn, nAlive := f'.nAlive, tAlive := f'.tAlive, down := f'.down);
    F.ControllerQuitKeeps(f, f');
  }

  lemma AbortedKeeps(s: Sys, s': Sys, sel: Sel)
    requires Inv(s) && Aborted(s, s', sel) && CtrlOK(s')
    requires forall k :: k in s.hist ==>
      var c, c' := StateOf(Find(s.ctrl.conns, AtController, k)), StateOf(Find(s'.ctrl.conns, AtController, k));
      c' == c || c' == None || (c.Some? && c' == Some(CLOSED))
    ensures Inv(s') && Evolves(s, s')
  {
    hide F.Sound, F.Later, FlowOf, StreamOK, CtrlOK, ClientOK, Find;
    HistKept(s, s');
    SegmentKept(s, s');
    ClientsKept(s, s');
    forall t | 0 <= t < Width(s') ensures StreamOK(s', t) {
      AbortedStreams(s, s', sel, t);
    }
    forall k | k in s'.hist ensures F.Keeps(FlowOf(s, k), FlowOf(s', k)) {
      AbortedFlow(s, s', sel, k);
    }
  }

  lemma LatchKeeps(s: Sys, t: nat, u: Uuid)
    requires Inv(s)
    ensures Inv(s.(ctrl := C.Latch(s.ctrl, t, u))) && Evolves(s, s.(ctrl := C.Latch(s.ctrl, t, u)))
  {
    hide F.Sound, F.Later, FlowOf, StreamOK, CtrlOK, ClientsOK, Find, HistOK, SegOK, BackendsOK, Hit;
    var s' := s.(ctrl := C.Latch(s.ctrl, t, u));
    var sel := Siblings(u, t, s.ctrl.dead);
    ConnsRegistered(s);
    TouchKept(s, s', sel, STOP, ABORT);
    forall k ensures var c, c' := StateOf(Find(s.ctrl.conns, AtController, k)), StateOf(Find(s'.ctrl.conns, AtController, k));
      c' == c || c' == None || (c.Some? && c' == Some(CLOSED))
    {
      TouchState(s.ctrl.conns, AtController, sel, STOP, ABORT, s.ctrl.now, k);
    }
    AbortedKeeps(s, s', sel);
  }

  lemma NorthErrKeeps(s: Sys, n: nat)
    requires Inv(s)
    ensures Inv(s.(ctrl := C.NorthErr(s.ctrl, n))) && Evolves(s, s.(ctrl := C.NorthErr(s.ctrl, n)))
  {
    hide F.Sound, F.Later, FlowOf, StreamOK, CtrlOK, ClientsOK, Find, HistOK, SegOK, BackendsOK, Hit;
    var s' := s.(ctrl := C.NorthErr(s.ctrl, n));
    EvolvesSelf(s);
    if s' != s {
      ConnsRegistered(s);
      DropKept(s, s', OfNorth(n));
      forall k ensures var c, c' := StateOf(Find(s.ctrl.conns, AtController, k)), StateOf(Find(s'.ctrl.conns, AtController, k));
        c' == c || c' == None || (c.Some? && c' == Some(CLOSED))
      {
        DropFind(s.ctrl.conns, AtController, OfNorth(n), k);
      }
      AbortedKeeps(s, s', ServingNorth(n, s.ctrl.dead));
    }
  }

  lemma NorthErrStepKeeps(s: Sys, n: nat)
    requires Inv(s)
    ensures Inv(Next(s, NorthErr(n))) && Evolves(s, Next(s, NorthErr(n)))
  {
    hide Tables, Evolves, StreamsOK, FlowsOK, C.NorthErr;
    NorthErrKeeps(s, n);
  }

  lemma ConnectFailKeeps(s: Sys, t: nat, n: nat)
    requires Inv(s)
    ensures Inv(Next(s, ConnectFail(t, n))) && Evolves(s, Next(s, ConnectFail(t, n)))
  {
    hide F.Sound, F.Later, FlowOf, StreamOK, CtrlOK, ClientsOK, Find, HistOK, SegOK, BackendsOK, Hit, Notify;
    var s' := Next(s, ConnectFail(t, n));
    EvolvesSelf(s);
    if s' != s {
      ConnsRegistered(s);
      DropKept(s, s', OfSouth(t));
      forall k ensures var c, c' := StateOf(Find(s.ctrl.conns, AtController, k)), StateOf(Find(s'.ctrl.conns, AtController, k));
        c' == c || c' == None || (c.Some? && c' == Some(CLOSED))
      {
        DropFind(s.ctrl.conns, AtController, OfSouth(t), k);
      }
      NobodyBeyond(s.ctrl.conns, |s.ctrl.clients|);
      NotifyNobody(s.ctrl.outs, s.ctrl.conns, AtController, OfNorth(|s.ctrl.clients|), STOP, ABORT, []);
      AbortedKeeps(s, s', OfNorth(|s.ctrl.clients|));
    }
  }

  lemma ClosesSouth(conns: seq<Conn>, t: nat, now: int)
    ensures forall c :: c in Touch(conns, OfSouth(t), STOP, ABORT, now) && c.state != CLOSED ==> c.south != t
  {
  }

  lemma SouthErrKeeps(s: Sys, t: nat)
    requires Inv(s)
    ensures Inv(Next(s, SouthErr(t))) && Evolves(s, Next(s, SouthErr(t)))
  {
    hide F.Sound, F.Later, FlowOf, StreamOK, CtrlOK, ClientsOK, Find, HistOK, SegOK, BackendsOK, Hit, Notify;
    var s' := Next(s, SouthErr(t));
    var orphans := Orphans(t, C.Gone(s.ctrl.clients));
    var mid := s.(ctrl := s.ctrl.(conns := Drop(s.ctrl.conns, orphans)));
    ConnsRegistered(s);
    DropKept(s, mid, orphans);
    ConnsRegistered(mid);
    ClosesSouth(mid.ctrl.conns, t, s.ctrl.now);
    TouchKept(mid, s', OfSouth(t), STOP, ABORT);
    forall k ensures var c, c' := StateOf(Find(s.ctrl.conns, AtController, k)), StateOf(Find(s'.ctrl.conns, AtController, k));
      c' == c || c' == None || (c.Some? && c' == Some(CLOSED))
    {
      DropFind(s.ctrl.conns, AtController, orphans, k);
      TouchState(mid.ctrl.conns, AtController, OfSouth(t), STOP, ABORT, s.ctrl.now, k);
    }
    NobodyBeyond(s.ctrl.conns, |s.ctrl.clients|);
    NotifyNobody(s.ctrl.outs, s.ctrl.conns, AtController, OfNorth(|s.ctrl.clients|), STOP, ABORT, []);
    AbortedKeeps(s, s', OfNorth(|s.ctrl.clients|));
  }

  lemma NorthStateKeeps(s: Sys, n: nat)
    requires Inv(s)
    ensures Inv(Next(s, NorthState(n))) && Evolves(s, Next(s, NorthState(n)))
  {
    hide Tables, StreamsOK, FlowsOK, C.NorthErr;
    EvolvesSelf(s);
    NorthErrKeeps(s, n);
  }

  // ---------------------------------------------------------------------------
  // Replies

  /** The receiving end of transport `t` holds a complete frame. */
  predicate Arrived(s: Sys, t: nat)
    requires Valid(s)
  {
    t < Width(s) && t !in s.ctrl.dead && Complete(s.ctrl.ins[t])
  }

  function Reply(s: Sys, t: nat): Frame
    requires Valid(s) && Arrived(s, t)
  {
    Decode(s.ctrl.ins[t])
  }

  /** The frame has been taken out of the reassembly buffer. */
  function Taken(s: Sys, t: nat): (s': Sys)
    requires Valid(s) && Arrived(s, t)
    ensures Valid(s')
  {
    s.(ctrl := s.ctrl.(ins := s.ctrl.ins[t := []]))
  }

  lemma TakenStreams(s: Sys, t: nat, r: nat)
    requires Valid(s) && Arrived(s, t) && r < Width(s) && StreamOK(s, r) && StreamOK(s, t)
    ensures StreamOK(Taken(s, t), r) && DownQ(Taken(s, t), r) == DownQ(s, r)
    ensures UpQ(s, r) == if r == t then [Reply(s, t)] + UpQ(Taken(s, t), t) else UpQ(Taken(s, t), r)
    ensures Key(t, Reply(s, t).eid) in s.hist && Sendable(Reply(s, t))
  {
    hide FrameStream, Parse;
    PopUp(s, Taken(s, t), t);
    assert Reply(s, t) in UpQ(s, t);
  }

  /** Matching by node bytes finds the connection the frame is for. */
  lemma MatchIsFind(s: Sys, t: nat, u: Uuid)
    requires CtrlOK(s) && NodesOK(s.hist) && Key(t, u) in s.hist
    ensures var i := C.MatchNode(s.ctrl.conns, t, u);
      if i < |s.ctrl.conns| then Find(s.ctrl.conns, AtController, Key(t, u)) == Some(s.ctrl.conns[i])
      else Find(s.ctrl.conns, AtController, Key(t, u)).None?
  {
    hide Find, C.MatchNode, Lawful;
    var i := C.MatchNode(s.ctrl.conns, t, u);
    if i < |s.ctrl.conns| {
      assert KeyOf(AtController, s.ctrl.conns[i]) == Key(t, u);
      FindAt(s.ctrl.conns, AtController, i);
    } else if Find(s.ctrl.conns, AtController, Key(t, u)).Some? {
      var j := FindIndex(s.ctrl.conns, AtController, Key(t, u));
      assert false;
    }
  }

  /** What taking a frame off transport `t` does to each connection's view. */
  lemma TakenFlow(s: Sys, t: nat, k: Key)
    requires Inv(s) && Arrived(s, t) && k in s.hist
    ensures InRange(Taken(s, t), k)
    ensures var f, f' := FlowOf(s, k), FlowOf(Taken(s, t), k);
      if k == Key(t, Reply(s, t).eid) then f.up == [Reply(s, t)] + f'.up && f' == f.(up := f.up[1..]) else f' == f
  {
    hide F.Sound, F.Later, FlowsOK, NodesOK, FrameStream, Parse, Find, Proj, Got, StreamOK, SegOK, ClientsOK, BackendsOK, CtrlOK;
    assert InRange(s, k) && StreamOK(s, k.t) && StreamOK(s, t);
    TakenStreams(s, t, k.t);
    ProjPop(Reply(s, t), UpQ(Taken(s, t), t), k.u);
  }

  lemma TakenTables(s: Sys, t: nat)
    requires Valid(s) && Tables(s) && Arrived(s, t)
    ensures Tables(Taken(s, t))
  {
    hide Lawful, ClientOK, Distinct, NodesOK;
    forall k | k in s.hist ensures InRange(Taken(s, t), k) {
      assert InRange(s, k);
    }
  }

  /** A frame nobody wants: it is dropped, and answered with an ABORT unless it is one. */
  lemma UnwantedKeeps(s: Sys, t: nat)
    requires Inv(s) && Arrived(s, t)
    requires var f := FlowOfReply(s, t);
      F.Listening(f) ==> f.conn.value == HALF_CLOSED && !f.eof
    ensures Inv(Taken(s, t)) && Evolves(s, Taken(s, t))
  {
    hide F.Sound, F.Later, FlowOf, StreamOK, FrameStream, Parse;
    TakenTables(s, t);
    forall r | 0 <= r < Width(s) ensures StreamOK(Taken(s, t), r) {
      TakenStreams(s, t, r);
    }
    forall k | k in s.hist ensures F.Keeps(FlowOf(s, k), FlowOf(Taken(s, t), k)) {
      TakenFlow(s, t, k);
      F.KeepsSelf(FlowOf(s, k));
      if k == Key(t, Reply(s, t).eid) {
        F.RejectUpKeeps(FlowOf(s, k));
      }
    }
  }

  /** The connection an arrived frame is for. */
  function FlowOfReply(s: Sys, t: nat): F.Flow
    requires Inv(s) && Arrived(s, t)
  {
    ReplyIsKnown(s, t);
    FlowOf(s, Key(t, Reply(s, t).eid))
  }

  lemma ReplyIsKnown(s: Sys, t: nat)
    requires Valid(s) && Tables(s) && StreamsOK(s) && Arrived(s, t)
    ensures Key(t, Reply(s, t).eid) in s.hist && InRange(s, Key(t, Reply(s, t).eid))
  {
    hide StreamOK;
    assert StreamOK(s, t);
    TakenStreams(s, t, t);
  }

  /** The controller answers with an ABORT on a transport it hears from. */
  lemma AnswerKeeps(s: Sys, t: nat, u: Uuid)
    requires Inv(s) && t < Width(s) && Key(t, u) in s.hist
    ensures var c := s.ctrl.(outs := s.ctrl.outs[t := s.ctrl.outs[t] + Encode(AbortFrame(u))]);
      Inv(s.(ctrl := c)) && Evolves(s, s.(ctrl := c))
  {
    hide F.Sound, F.Later, FlowOf, StreamOK, FrameStream, Parse, Encode;
    var s' := s.(ctrl := s.ctrl.(outs := s.ctrl.outs[t := s.ctrl.outs[t] + Encode(AbortFrame(u))]));
    assert EncodeAll([AbortFrame(u)]) == Encode(AbortFrame(u));
    forall k | k in s.hist ensures InRange(s', k) {
      assert InRange(s, k);
    }
    forall r | 0 <= r < Width(s) ensures StreamOK(s', r) && UpQ(s', r) == UpQ(s, r) {
      AnswerStream(s, s', t, u, r);
    }
    forall k | k in s.hist ensures F.Keeps(FlowOf(s, k), FlowOf(s', k)) {
      AnswerFlow(s, s', t, u, k);
    }
  }

  predicate Answered(s: Sys, s': Sys, t: nat, u: Uuid)
    requires Valid(s)
  {
    && t < Width(s) && Key(t, u) in s.hist
    && s' == s.(ctrl := s.ctrl.(outs := s.ctrl.outs[t := s.ctrl.outs[t] + Encode(AbortFrame(u))]))
  }

  lemma AnswerStream(s: Sys, s': Sys, t: nat, u: Uuid, r: nat)
    requires Valid(s) && Answered(s, s', t, u) && r < Width(s) && StreamOK(s, r)
    ensures Valid(s') && StreamOK(s', r) && UpQ(s', r) == UpQ(s, r)
    ensures DownQ(s', r) == if r == t then DownQ(s, t) + [AbortFrame(u)] else DownQ(s, r)
  {
    hide FrameStream, Parse, Encode;
    assert EncodeAll([AbortFrame(u)]) == Encode(AbortFrame(u));
    if r == t {
      PushDown(s, s', t, [AbortFrame(u)]);
    }
  }

  lemma AnswerFlow(s: Sys, s': Sys, t: nat, u: Uuid, k: Key)
    requires Inv(s) && Answered(s, s', t, u) && k in s.hist
    ensures Valid(s') && InRange(s', k) && F.Keeps(FlowOf(s, k), FlowOf(s', k))
  {
    hide F.Sound, F.Later, NodesOK, FrameStream, Parse, Encode, Find, Proj, Got, StreamOK, SegOK, ClientsOK, BackendsOK, CtrlOK;
    assert InRange(s, k) && StreamOK(s, k.t);
    AnswerStream(s, s', t, u, k.t);
    ProjPush(DownQ(s, t), AbortFrame(u), k.u);
    var f, f' := FlowOf(s, k), FlowOf(s', k);
    assert f' == f.(down := f'.down);
    F.ControllerQuitKeeps(f, f');
  }

  // ---------------------------------------------------------------------------
  // Accepted replies

  lemma GotMore(log: seq<C.Piece>, k: Key, data: seq<byte>, l: Key)
    ensures Got(log + [C.Piece(k, data)], l) == if l == k then Got(log, l) + data else Got(log, l)
  {
    assert (log + [C.Piece(k, data)])[..|log|] == log;
  }

  /** The frame has been passed to the client and its connection advanced. */
  function Passed(s: Sys, t: nat): (s': Sys)
    requires Valid(s) && Arrived(s, t) && C.Judge(s.ctrl, t, Reply(s, t)).Accept?
    ensures Valid(s')
  {
    var c := C.AcceptFrame(s.ctrl, t, Reply(s, t));
    s.(ctrl := c.(ins := c.ins[t := []]))
  }

  /** Accepted means: the connection is there, not CLOSED, its client is there, and the
      segment had not already said STOP, or is aborting. */
  lemma AcceptedEntry(s: Sys, t: nat)
    requires Inv(s) && Arrived(s, t) && C.Judge(s.ctrl, t, Reply(s, t)).Accept?
    ensures var k := Key(t, Reply(s, t).eid);
      var i := C.MatchNode(s.ctrl.conns, t, k.u);
      && k in s.hist && KeyOf(AtController, s.ctrl.conns[i]) == k && s.ctrl.conns[i].north == s.hist[k].client
      && Find(s.ctrl.conns, AtController, k) == Some(s.ctrl.conns[i])
      && F.Listening(FlowOf(s, k))
      && (FlowOf(s, k).conn.value == HALF_CLOSED && !FlowOf(s, k).eof ==> IsAbort(Reply(s, t)))
      && Lawful(s.ctrl.conns[i], s.ctrl.now)
  {
    hide F.Sound, F.Later, FlowsOK, Find, C.MatchNode, Proj, Parse, Got, StreamOK, Lawful;
    ReplyIsKnown(s, t);
    MatchIsFind(s, t, Reply(s, t).eid);
  }

  lemma PassedTables(s: Sys, t: nat)
    requires Inv(s) && Arrived(s, t) && C.Judge(s.ctrl, t, Reply(s, t)).Accept?
    ensures Tables(Passed(s, t))
  {
    hide F.Sound, F.Later, FlowsOK, StreamsOK, Find, C.MatchNode, NodesOK, Lawful, StateUpdate, FlowOf, C.Judge;
    var s', f := Passed(s, t), Reply(s, t);
    var k := Key(t, f.eid);
    var i := C.MatchNode(s.ctrl.conns, t, f.eid);
    AcceptedEntry(s, t);
    StateUpdateIsLawful(s.ctrl.conns[i], f.op, f.flags, s.ctrl.now, s.ctrl.now);
    ReplaceFind(s.ctrl.conns, AtController, i, s'.ctrl.conns[i], k);
    forall l | l in s.hist ensures InRange(s', l) {
      assert InRange(s, l);
    }
    forall n | 0 <= n < |s.ctrl.clients| ensures ClientOK(s'.hist, n, s'.ctrl.clients[n]) {
      assert ClientOK(s.hist, n, s.ctrl.clients[n]);
      assert PieceOK(s.hist, s.ctrl.conns[i].north, C.Piece(k, f.payload));
    }
  }

  lemma PassedFlow(s: Sys, t: nat, k: Key)
    requires Inv(s) && Arrived(s, t) && C.Judge(s.ctrl, t, Reply(s, t)).Accept? && k in s.hist
    ensures InRange(Passed(s, t), k)
    ensures var f, f' := FlowOf(s, k), FlowOf(Passed(s, t), k);
      var x := Reply(s, t);
      if k == Key(t, x.eid) then
        && F.Listening(f) && f.up == [x] + f'.up
        && f' == f.(up := f.up[1..], got := f.got + x.payload, conn := Some(NextState(f.conn.value, x.op, x.flags)))
      else f' == f
  {
    hide F.Sound, F.Later, FlowsOK, StreamsOK, Find, C.MatchNode, NodesOK, StateUpdate, C.Judge, Proj, Parse, Got, NextState, Lawful;
    var s', x := Passed(s, t), Reply(s, t);
    var k0 := Key(t, x.eid);
    var i := C.MatchNode(s.ctrl.conns, t, x.eid);
    AcceptedEntry(s, t);
    TakenFlow(s, t, k);
    assert InRange(s, k);
    StateUpdateIsLawful(s.ctrl.conns[i], x.op, x.flags, s.ctrl.now, s.ctrl.now);
    ReplaceFind(s.ctrl.conns, AtController, i, s'.ctrl.conns[i], k);
    GotMore(s.ctrl.clients[s.hist[k0].client].log, k0, x.payload, k);
    PassedQueues(s, t, k.t);
    var f := FlowOf(s, k);
    assert f.got + [] == f.got;
  }

  lemma PassedQueues(s: Sys, t: nat, r: nat)
    requires Valid(s) && Arrived(s, t) && C.Judge(s.ctrl, t, Reply(s, t)).Accept? && r < Width(s)
    ensures DownQ(Passed(s, t), r) == DownQ(Taken(s, t), r) && UpQ(Passed(s, t), r) == UpQ(Taken(s, t), r)
  {
    hide Parse, C.Judge, C.MatchNode, StateUpdate;
  }

  lemma PassedKeeps(s: Sys, t: nat)
    requires Inv(s) && Arrived(s, t) && C.Judge(s.ctrl, t, Reply(s, t)).Accept?
    ensures Inv(Passed(s, t)) && Evolves(s, Passed(s, t))
  {
    hide F.Sound, F.Later, FlowOf, StreamOK, C.Judge, C.MatchNode, StateUpdate, NextState, CtrlOK, SegOK, BackendsOK, ClientsOK;
    var s' := Passed(s, t);
    PassedTables(s, t);
    forall r | 0 <= r < Width(s) ensures StreamOK(s', r) {
      TakenStreams(s, t, r);
      PassedStream(s, t, r);
    }
    forall k | k in s.hist ensures F.Keeps(FlowOf(s, k), FlowOf(s', k)) {
      PassedFlow(s, t, k);
      F.KeepsSelf(FlowOf(s, k));
      if k == Key(t, Reply(s, t).eid) {
        AcceptedEntry(s, t);
        F.AcceptUpKeeps(FlowOf(s, k));
      }
    }
  }

  lemma PassedStream(s: Sys, t: nat, r: nat)
    requires Valid(s) && Arrived(s, t) && C.Judge(s.ctrl, t, Reply(s, t)).Accept? && r < Width(s)
    requires StreamOK(Taken(s, t), r)
    ensures StreamOK(Passed(s, t), r)
  {
    hide C.Judge, C.MatchNode, StateUpdate, FrameStream, Parse;
  }

  lemma CtrlSouthKeeps(s: Sys, t: nat)
    requires Inv(s)
    ensures Inv(Next(s, CtrlSouth(t))) && Evolves(s, Next(s, CtrlSouth(t)))
  {
    hide Tables, Evolves, StreamsOK, FlowsOK, C.Latch, C.MatchNode, C.AcceptFrame, Encode;
    EvolvesSelf(s);
    if Arrived(s, t) {
      var x := Reply(s, t);
      match C.Judge(s.ctrl, t, x) {
        case Block =>
        case Ignore =>
          RejectedFlow(s, t);
          UnwantedKeeps(s, t);
        case Reject =>
          RejectedFlow(s, t);
          UnwantedKeeps(s, t);
          ReplyIsKnown(s, t);
          AnswerKeeps(Taken(s, t), t, x.eid);
          if !IsAbort(x) {
            EvolvesTransitive(s, Taken(s, t), Next(s, CtrlSouth(t)));
          }
        case Accept =>
          PassedKeeps(s, t);
          LatchKeeps(Passed(s, t), t, x.eid);
          LatchLast(s, t);
          if Next(s, CtrlSouth(t)) != Passed(s, t) {
            EvolvesTransitive(s, Passed(s, t), Next(s, CtrlSouth(t)));
          }
      }
    }
  }

  lemma RejectedFlow(s: Sys, t: nat)
    requires Inv(s) && Arrived(s, t) && (C.Judge(s.ctrl, t, Reply(s, t)).Reject? || C.Judge(s.ctrl, t, Reply(s, t)).Ignore?)
    ensures var f := FlowOfReply(s, t);
      F.Listening(f) ==> f.conn.value == HALF_CLOSED && !f.eof
  {
    hide F.Sound, F.Later, FlowsOK, Find, C.MatchNode, Proj, Parse, Got, StreamOK, Lawful;
    ReplyIsKnown(s, t);
    MatchIsFind(s, t, Reply(s, t).eid);
    var k := Key(t, Reply(s, t).eid);
    if Find(s.ctrl.conns, AtController, k).Some? {
      EntryOf(s, k);
    }
  }

  /** Emptying the reassembly buffer and latching do not interfere. */
  lemma LatchLast(s: Sys, t: nat)
    requires Valid(s) && Arrived(s, t) && C.Judge(s.ctrl, t, Reply(s, t)).Accept?
    ensures var x := Reply(s, t);
      var i := C.MatchNode(s.ctrl.conns, t, x.eid);
      Next(s, CtrlSouth(t)) ==
        if C.Latches(s.ctrl.mode, s.ctrl.conns[i], x) then s.(ctrl := C.Latch(Passed(s, t).ctrl, t, x.eid)) else Passed(s, t)
  {
    hide C.MatchNode, StateUpdate, Hit;
  }
}
