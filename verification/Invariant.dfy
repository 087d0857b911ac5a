/** What holds in every reachable state of the system. */
module Invariant {
  import opened Frames
  import opened Connections
  import opened Reassembly
  import opened System
  import F = Flow
  import C = Controller
  import G = Segment

  /** What a client was given by connection `k`. */
  function Got(log: seq<C.Piece>, k: Key): seq<byte> {
    if log == [] then [] else
    var p := log[|log| - 1];
    Got(log[..|log| - 1], k) + (if p.from == k then p.bytes else [])
  }

  predicate InRange(s: Sys, k: Key)
    requires k in s.hist
  {
    var h := s.hist[k];
    && k.t < Width(s) && h.client < |s.ctrl.clients|
    && 0 <= h.open <= |s.ctrl.clients[h.client].read|
    && (h.backend.Some? ==> h.backend.value < |s.seg.backends| && s.seg.backends[h.backend.value].key == k)
  }

  /** Node bytes tell sessions apart, and on one transport they tell connections apart. */
  predicate NodesOK(hist: map<Key, Hist>) {
    forall k, l :: k in hist && l in hist && Node(k.u) == Node(l.u) ==>
      hist[k].client == hist[l].client && (k.t == l.t ==> k == l)
  }

  predicate HistOK(s: Sys) {
    (forall k :: k in s.hist ==> InRange(s, k)) && NodesOK(s.hist)
  }

  /** Only CLOSED connections outlive their transport, and a client has at most one
      connection on a live transport, whatever its sessions. */
  predicate LiveOK(conns: seq<Conn>, dead: set<nat>) {
    && (forall c :: c in conns && c.state != CLOSED ==> c.south !in dead)
    && (forall c, d :: c in conns && d in conns && c.north == d.north && c.south == d.south && c.south !in dead ==> c.uuid == d.uuid)
  }

  predicate CtrlOK(s: Sys) {
    && Distinct(s.ctrl.conns, AtController) && LiveOK(s.ctrl.conns, s.ctrl.dead)
    && forall i :: 0 <= i < |s.ctrl.conns| ==>
        && KeyOf(AtController, s.ctrl.conns[i]) in s.hist
        && s.hist[KeyOf(AtController, s.ctrl.conns[i])].client == s.ctrl.conns[i].north
        && Lawful(s.ctrl.conns[i], s.ctrl.now)
  }

  predicate SegOK(s: Sys) {
    && Distinct(s.seg.conns, AtSegment)
    && forall i :: 0 <= i < |s.seg.conns| ==>
        && KeyOf(AtSegment, s.seg.conns[i]) in s.hist
        && s.hist[KeyOf(AtSegment, s.seg.conns[i])].backend == Some(s.seg.conns[i].south)
        && Lawful(s.seg.conns[i], s.seg.now)
  }

  predicate PieceOK(hist: map<Key, Hist>, n: nat, p: C.Piece) {
    p.from in hist && hist[p.from].client == n
  }

  predicate ClientOK(hist: map<Key, Hist>, n: nat, cl: C.Client) {
    && |cl.pend| <= MAX_PAYLOAD && |cl.pend| <= |cl.read|
    && cl.read[|cl.read| - |cl.pend|..] == cl.pend
    && forall p :: p in cl.log ==> PieceOK(hist, n, p)
  }

  predicate ClientsOK(s: Sys) {
    forall n :: 0 <= n < |s.ctrl.clients| ==> ClientOK(s.hist, n, s.ctrl.clients[n])
  }

  predicate BackendsOK(s: Sys) {
    forall b :: 0 <= b < |s.seg.backends| ==>
      && s.seg.backends[b].key in s.hist
      && s.hist[s.seg.backends[b].key].backend == Some(b)
      && |s.seg.backends[b].pend| <= MAX_PAYLOAD
  }

  /** Every frame in the queue is for a connection that was made on this transport. */
  predicate Known(hist: map<Key, Hist>, t: nat, q: seq<Frame>) {
    forall f :: f in q ==> Key(t, f.eid) in hist
  }

  /** Each direction of transport `t` holds a concatenation of complete frames, and nothing else. */
  predicate StreamOK(s: Sys, t: nat)
    requires Valid(s) && t < Width(s)
  {
    && FrameStream(DownBytes(s, t)) && FrameStream(UpBytes(s, t))
    && Known(s.hist, t, DownQ(s, t)) && Known(s.hist, t, UpQ(s, t))
  }

  predicate StreamsOK(s: Sys)
    requires Valid(s)
  {
    forall t :: 0 <= t < Width(s) ==> StreamOK(s, t)
  }

  function StateOf(c: Option<Conn>): Option<State> {
    match c case None => None case Some(x) => Some(x.state)
  }

  function NoBackend(k: Key): G.Backend {
    G.Backend(k, false, [], [], [], 0, false)
  }

  function BackendOf(s: Sys, k: Key): G.Backend
    requires k in s.hist && InRange(s, k)
  {
    if s.hist[k].backend.Some? then s.seg.backends[s.hist[k].backend.value] else NoBackend(k)
  }

  /** The system seen from connection `k`. */
  function FlowOf(s: Sys, k: Key): F.Flow
    requires Valid(s) && k in s.hist && InRange(s, k)
  {
    var h := s.hist[k];
    var cl := s.ctrl.clients[h.client];
    var bk := BackendOf(s, k);
    F.Flow(
      StateOf(Find(s.ctrl.conns, AtController, k)), cl.alive, k.t !in s.ctrl.dead, cl.eof,
      cl.read[h.open..], cl.pend, h.sent, Proj(DownQ(s, k.t), k.u),
      StateOf(Find(s.seg.conns, AtSegment, k)), h.backend.Some?, bk.written,
      bk.read, bk.pend, bk.eof, h.framed, Proj(UpQ(s, k.t), k.u),
      Got(cl.log, k))
  }

  predicate Tables(s: Sys) {
    HistOK(s) && CtrlOK(s) && SegOK(s) && ClientsOK(s) && BackendsOK(s)
  }

  predicate FlowsOK(s: Sys)
    requires Valid(s) && HistOK(s)
  {
    forall k :: k in s.hist ==> F.Sound(FlowOf(s, k))
  }

  predicate Inv(s: Sys) {
    Valid(s) && Tables(s) && StreamsOK(s) && FlowsOK(s)
  }

  /** No connection of `s` was forgotten, and each is as it was or has moved on. */
  predicate Evolves(s: Sys, s': Sys)
    requires Valid(s) && HistOK(s) && Valid(s') && HistOK(s')
  {
    && (forall k :: k in s.hist ==> k in s'.hist && F.Later(FlowOf(s, k), FlowOf(s', k)))
    && NewNodes(s.hist, s'.hist)
  }

  /** Connections made since belong to sessions opened since. */
  predicate NewNodes(hist: map<Key, Hist>, hist': map<Key, Hist>) {
    forall k, l :: k in hist' && k !in hist && l in hist ==> Node(k.u) != Node(l.u)
  }

  lemma NewNodesTransitive(h: map<Key, Hist>, h1: map<Key, Hist>, h2: map<Key, Hist>)
    requires NewNodes(h, h1) && NewNodes(h1, h2) && h.Keys <= h1.Keys
    ensures NewNodes(h, h2)
  {
    hide Node;
  }

  lemma EvolvesSelf(s: Sys)
    requires Inv(s)
    ensures Evolves(s, s)
  {
    hide F.Sound, FlowOf;
    forall k | k in s.hist ensures F.Later(FlowOf(s, k), FlowOf(s, k)) {
      F.KeepsSelf(FlowOf(s, k));
    }
  }

  lemma EvolvesTransitive(s: Sys, m: Sys, s': Sys)
    requires Inv(s) && Inv(m) && Inv(s') && Evolves(s, m) && Evolves(m, s')
    ensures Evolves(s, s')
  {
    hide F.Sound, F.Later, FlowOf, StreamsOK, CtrlOK, SegOK, ClientsOK, BackendsOK, NodesOK, InRange, NewNodes, Valid;
    forall k | k in s.hist ensures F.Later(FlowOf(s, k), FlowOf(s', k)) {
      F.LaterTransitive(FlowOf(s, k), FlowOf(m, k), FlowOf(s', k));
    }
    NewNodesTransitive(s.hist, m.hist, s'.hist);
  }

  lemma InvStart(mode: C.Mode)
    ensures Inv(Start(mode))
  {
  }

  // ---------------------------------------------------------------------------
  // Steps that only move bytes along, and steps at the edges

  lemma Shift(a: seq<byte>, w: seq<byte>, o: seq<byte>, k: nat)
    requires k <= |o|
    ensures a + ((w + o[..k]) + o[k..]) == a + (w + o)
  {
  }

  lemma Slide(a: seq<byte>, w: seq<byte>, o: seq<byte>, k: nat)
    requires k <= |w|
    ensures (a + w[..k]) + (w[k..] + o) == a + (w + o)
  {
  }

  lemma SameStream(s: Sys, s': Sys, t: nat)
    requires Valid(s) && Valid(s') && t < Width(s) && t < Width(s')
    requires StreamOK(s, t) && s.hist.Keys <= s'.hist.Keys
    requires DownBytes(s', t) == DownBytes(s, t) && UpBytes(s', t) == UpBytes(s, t)
    ensures StreamOK(s', t)
  {
  }

  /** Neither the buffers nor the wires changed. */
  predicate SameBuffers(s: Sys, s': Sys) {
    && s'.ctrl.outs == s.ctrl.outs && s'.ctrl.ins == s.ctrl.ins && s'.seg.outs == s.seg.outs && s'.seg.ins == s.seg.ins
    && s'.downWire == s.downWire && s'.upWire == s.upWire
  }

  lemma SameStreams(s: Sys, s': Sys)
    requires Valid(s) && Valid(s') && StreamsOK(s)
    requires SameBuffers(s, s') && s.hist.Keys <= s'.hist.Keys
    ensures StreamsOK(s')
  {
    forall t | 0 <= t < Width(s) ensures StreamOK(s', t) {
      SameStream(s, s', t);
    }
  }

  /** Only buffers changed, and the bytes in flight are the same. */
  lemma SameBytesKeeps(s: Sys, s': Sys)
    requires Inv(s) && Valid(s')
    requires s' == s.(ctrl := s'.ctrl, seg := s'.seg, downWire := s'.downWire, upWire := s'.upWire)
    requires s'.ctrl == s.ctrl.(outs := s'.ctrl.outs, ins := s'.ctrl.ins)
    requires s'.seg == s.seg.(outs := s'.seg.outs, ins := s'.seg.ins)
    requires Width(s') == Width(s)
    requires forall t :: 0 <= t < Width(s) ==> DownBytes(s', t) == DownBytes(s, t) && UpBytes(s', t) == UpBytes(s, t)
    ensures Inv(s') && Evolves(s, s')
  {
    hide F.Sound, F.Later, Find, Proj, Parse, Got, FrameStream;
    forall t | 0 <= t < Width(s) ensures StreamOK(s', t) {
      SameStream(s, s', t);
    }
    forall k | k in s.hist ensures InRange(s', k) && F.Keeps(FlowOf(s, k), FlowOf(s', k)) {
      assert InRange(s, k);
      assert FlowOf(s', k) == FlowOf(s, k);
      F.KeepsSelf(FlowOf(s, k));
    }
  }

  lemma FlushDownKeeps(s: Sys, t: nat, k: nat)
    requires Inv(s)
    ensures Inv(Next(s, FlushDown(t, k))) && Evolves(s, Next(s, FlushDown(t, k)))
  {
    hide Tables, StreamsOK, FlowsOK, Evolves;
    var s' := Next(s, FlushDown(t, k));
    EvolvesSelf(s);
    if s' != s {
      Shift(s.seg.ins[t], s.downWire[t], s.ctrl.outs[t], k);
      SameBytesKeeps(s, s');
    }
  }

  lemma FlushUpKeeps(s: Sys, t: nat, k: nat)
    requires Inv(s)
    ensures Inv(Next(s, FlushUp(t, k))) && Evolves(s, Next(s, FlushUp(t, k)))
  {
    hide Tables, StreamsOK, FlowsOK, Evolves;
    var s' := Next(s, FlushUp(t, k));
    EvolvesSelf(s);
    if s' != s {
      Shift(s.ctrl.ins[t], s.upWire[t], s.seg.outs[t], k);
      SameBytesKeeps(s, s');
    }
  }

  lemma ReadDownKeeps(s: Sys, t: nat, k: nat)
    requires Inv(s)
    ensures Inv(Next(s, ReadDown(t, k))) && Evolves(s, Next(s, ReadDown(t, k)))
  {
    hide Tables, StreamsOK, FlowsOK, Evolves;
    var s' := Next(s, ReadDown(t, k));
    EvolvesSelf(s);
    if s' != s {
      Slide(s.seg.ins[t], s.downWire[t], s.ctrl.outs[t], Pull(s.seg.ins[t], s.downWire[t][..k]));
      SameBytesKeeps(s, s');
    }
  }

  lemma ReadUpKeeps(s: Sys, t: nat, k: nat)
    requires Inv(s)
    ensures Inv(Next(s, ReadUp(t, k))) && Evolves(s, Next(s, ReadUp(t, k)))
  {
    hide Tables, StreamsOK, FlowsOK, Evolves;
    var s' := Next(s, ReadUp(t, k));
    EvolvesSelf(s);
    if s' != s {
      Slide(s.ctrl.ins[t], s.upWire[t], s.seg.outs[t], Pull(s.ctrl.ins[t], s.upWire[t][..k]));
      SameBytesKeeps(s, s');
    }
  }

  // A step's lemma is put together from what it does to the tables, to the streams and to each flow.

  /** Only the clients changed, and nothing read from them was forgotten. */
  lemma ClientTables(s: Sys, s': Sys)
    requires Tables(s) && ClientsOK(s')
    requires s' == s.(ctrl := s.ctrl.(clients := s'.ctrl.clients))
    requires |s'.ctrl.clients| >= |s.ctrl.clients|
    requires forall n :: 0 <= n < |s.ctrl.clients| ==> |s'.ctrl.clients[n].read| >= |s.ctrl.clients[n].read|
    ensures Tables(s')
  {
    forall k | k in s.hist ensures InRange(s', k) {
      assert InRange(s, k);
    }
  }

  /** Only the backends changed. */
  lemma BackendTables(s: Sys, s': Sys)
    requires Tables(s) && BackendsOK(s')
    requires s' == s.(seg := s.seg.(backends := s'.seg.backends))
    requires |s'.seg.backends| == |s.seg.backends|
    requires forall b :: 0 <= b < |s.seg.backends| ==> s'.seg.backends[b].key == s.seg.backends[b].key
    ensures Tables(s')
  {
    forall k | k in s.hist ensures InRange(s', k) {
      assert InRange(s, k);
    }
  }

  lemma LawfulLater(c: Conn, now: int, later: int)
    requires Lawful(c, now) && now <= later
    ensures Lawful(c, later)
  {
  }

  lemma TickTables(s: Sys, d: nat)
    requires Valid(s) && Tables(s)
    ensures Tables(Next(s, Tick(d)))
  {
    hide Lawful;
    var s' := Next(s, Tick(d));
    forall k | k in s.hist ensures InRange(s', k) {
      assert InRange(s, k);
    }
    forall i | 0 <= i < |s.ctrl.conns| ensures Lawful(s.ctrl.conns[i], s'.ctrl.now) {
      LawfulLater(s.ctrl.conns[i], s.ctrl.now, s'.ctrl.now);
    }
    forall i | 0 <= i < |s.seg.conns| ensures Lawful(s.seg.conns[i], s'.seg.now) {
      LawfulLater(s.seg.conns[i], s.seg.now, s'.seg.now);
    }
  }

  /** A step that changes neither the record of connections nor any flow. */
  lemma SameFlowsKeep(s: Sys, s': Sys)
    requires Inv(s) && Valid(s') && Tables(s') && StreamsOK(s') && s'.hist == s.hist
    requires forall k :: k in s.hist ==> FlowOf(s', k) == FlowOf(s, k)
    ensures Inv(s') && Evolves(s, s')
  {
    hide F.Sound, F.Later, FlowOf, StreamsOK, CtrlOK, SegOK, ClientsOK, BackendsOK, NodesOK, InRange, Valid;
    forall k | k in s.hist ensures F.Sound(FlowOf(s', k)) && F.Later(FlowOf(s, k), FlowOf(s', k)) {
      F.KeepsSelf(FlowOf(s, k));
    }
  }

  lemma TickKeeps(s: Sys, d: nat)
    requires Inv(s)
    ensures Inv(Next(s, Tick(d))) && Evolves(s, Next(s, Tick(d)))
  {
    hide F.Sound, F.Later, Find, Proj, Parse, Got, FrameStream, CtrlOK, SegOK, ClientsOK, BackendsOK;
    var s' := Next(s, Tick(d));
    TickTables(s, d);
    SameStreams(s, s');
    forall k | k in s.hist ensures F.Keeps(FlowOf(s, k), FlowOf(s', k)) {
      assert FlowOf(s', k) == FlowOf(s, k);
      F.KeepsSelf(FlowOf(s, k));
    }
  }

  lemma NewClientFlow(s: Sys, k: Key)
    requires Valid(s) && k in s.hist && InRange(s, k)
    ensures var s' := Next(s, NewClient); InRange(s', k) && FlowOf(s', k) == FlowOf(s, k)
  {
    hide Find, Proj, Parse, Got;
  }

  lemma NewClientKeeps(s: Sys)
    requires Inv(s)
    ensures Inv(Next(s, NewClient)) && Evolves(s, Next(s, NewClient))
  {
    hide F.Sound, F.Later, FlowOf, StreamOK, NodesOK, CtrlOK, SegOK, BackendsOK;
    var s' := Next(s, NewClient);
    ClientTables(s, s');
    SameStreams(s, s');
    forall k | k in s.hist ensures FlowOf(s', k) == FlowOf(s, k) {
      NewClientFlow(s, k);
    }
    SameFlowsKeep(s, s');
  }

  lemma NewTransportFlow(s: Sys, k: Key)
    requires Valid(s) && k in s.hist && InRange(s, k)
    ensures var s' := Next(s, NewTransport); InRange(s', k) && FlowOf(s', k) == FlowOf(s, k)
  {
    hide Find, Proj, Parse, Got;
  }

  lemma NewTransportStream(s: Sys, t: nat)
    requires Valid(s) && StreamsOK(s) && t < Width(Next(s, NewTransport))
    ensures StreamOK(Next(s, NewTransport), t)
  {
    hide Parse;
    var s' := Next(s, NewTransport);
    if t < Width(s) {
      SameStream(s, s', t);
    } else {
      assert DownBytes(s', t) == [] && UpBytes(s', t) == [];
      assert Parse([]) == [] by { NothingParses(); }
    }
  }

  lemma NothingParses()
    ensures Parse([]) == []
  {
  }

  lemma NewTransportTables(s: Sys)
    requires Valid(s) && Tables(s)
    ensures Tables(Next(s, NewTransport))
  {
    var s' := Next(s, NewTransport);
    forall k | k in s.hist ensures InRange(s', k) {
      assert InRange(s, k);
    }
  }

  lemma NewTransportKeeps(s: Sys)
    requires Inv(s)
    ensures Inv(Next(s, NewTransport)) && Evolves(s, Next(s, NewTransport))
  {
    hide F.Sound, F.Later, FlowOf, StreamOK, NodesOK, CtrlOK, SegOK, ClientsOK, BackendsOK;
    var s' := Next(s, NewTransport);
    forall t | 0 <= t < Width(s') ensures StreamOK(s', t) {
      NewTransportStream(s, t);
    }
    NewTransportTables(s);
    forall k | k in s.hist ensures FlowOf(s', k) == FlowOf(s, k) {
      NewTransportFlow(s, k);
    }
    SameFlowsKeep(s, s');
  }

  lemma ClientFlushFlow(s: Sys, n: nat, k: nat, l: Key)
    requires Valid(s) && l in s.hist && InRange(s, l)
    ensures var s' := Next(s, ClientFlush(n, k)); InRange(s', l) && FlowOf(s', l) == FlowOf(s, l)
  {
    hide Find, Proj, Parse, Got;
  }

  lemma ClientFlushKeeps(s: Sys, n: nat, k: nat)
    requires Inv(s)
    ensures Inv(Next(s, ClientFlush(n, k))) && Evolves(s, Next(s, ClientFlush(n, k)))
  {
    hide F.Sound, F.Later, FlowOf, StreamOK, NodesOK, CtrlOK, SegOK, BackendsOK;
    var s' := Next(s, ClientFlush(n, k));
    ClientTables(s, s');
    SameStreams(s, s');
    forall l | l in s.hist ensures FlowOf(s', l) == FlowOf(s, l) {
      ClientFlushFlow(s, n, k, l);
    }
    SameFlowsKeep(s, s');
  }

  lemma BackendFlushFlow(s: Sys, b: nat, k: nat, l: Key)
    requires Valid(s) && l in s.hist && InRange(s, l)
    ensures var s' := Next(s, BackendFlush(b, k)); InRange(s', l) && FlowOf(s', l) == FlowOf(s, l)
  {
    hide Find, Proj, Parse, Got;
  }

  lemma BackendFlushKeeps(s: Sys, b: nat, k: nat)
    requires Inv(s)
    ensures Inv(Next(s, BackendFlush(b, k))) && Evolves(s, Next(s, BackendFlush(b, k)))
  {
    hide F.Sound, F.Later, FlowOf, StreamOK, NodesOK, CtrlOK, SegOK, ClientsOK;
    var s' := Next(s, BackendFlush(b, k));
    BackendTables(s, s');
    SameStreams(s, s');
    forall l | l in s.hist ensures FlowOf(s', l) == FlowOf(s, l) {
      BackendFlushFlow(s, b, k, l);
    }
    SameFlowsKeep(s, s');
  }

  lemma ClientReadFlow(s: Sys, n: nat, chunk: seq<byte>, eof: bool, k: Key)
    requires Valid(s) && k in s.hist && InRange(s, k) && F.Sound(FlowOf(s, k))
    ensures InRange(Next(s, ClientRead(n, chunk, eof)), k)
    ensures F.Keeps(FlowOf(s, k), FlowOf(Next(s, ClientRead(n, chunk, eof)), k))
  {
    hide F.Sound, F.Later, Find, Proj, Parse, Got;
    var s' := Next(s, ClientRead(n, chunk, eof));
    var f, f' := FlowOf(s, k), FlowOf(s', k);
    if s.hist[k].client == n && s' != s {
      F.ClientReadKeeps(f, chunk, eof);
      assert f'.since == f.since + chunk;
      assert f' == f.(since := f.since + chunk, pend := chunk, eof := eof);
    } else {
      assert f' == f;
      F.KeepsSelf(f);
    }
  }

  lemma ReadClientOK(hist: map<Key, Hist>, n: nat, cl: C.Client, chunk: seq<byte>, eof: bool)
    requires ClientOK(hist, n, cl) && |chunk| <= MAX_PAYLOAD
    ensures ClientOK(hist, n, cl.(read := cl.read + chunk, pend := chunk, eof := eof))
  {
  }

  lemma ClientReadKeeps(s: Sys, n: nat, chunk: seq<byte>, eof: bool)
    requires Inv(s)
    ensures Inv(Next(s, ClientRead(n, chunk, eof))) && Evolves(s, Next(s, ClientRead(n, chunk, eof)))
  {
    hide F.Sound, F.Later, FlowOf, StreamOK, ClientOK, NodesOK, CtrlOK, SegOK, BackendsOK;
    var s' := Next(s, ClientRead(n, chunk, eof));
    if s' != s {
      ReadClientOK(s.hist, n, s.ctrl.clients[n], chunk, eof);
    }
    ClientTables(s, s');
    SameStreams(s, s');
    forall k | k in s.hist ensures F.Keeps(FlowOf(s, k), FlowOf(s', k)) {
      ClientReadFlow(s, n, chunk, eof, k);
    }
  }

  lemma BackendReadFlow(s: Sys, b: nat, chunk: seq<byte>, eof: bool, k: Key)
    requires Valid(s) && k in s.hist && InRange(s, k) && F.Sound(FlowOf(s, k))
    ensures InRange(Next(s, BackendRead(b, chunk, eof)), k)
    ensures F.Keeps(FlowOf(s, k), FlowOf(Next(s, BackendRead(b, chunk, eof)), k))
  {
    hide F.Sound, F.Later, Find, Proj, Parse, Got;
    var s' := Next(s, BackendRead(b, chunk, eof));
    var f, f' := FlowOf(s, k), FlowOf(s', k);
    if s.hist[k].backend == Some(b) && s' != s {
      F.BackendReadKeeps(f, chunk, eof);
      assert f' == f.(bRead := f.bRead + chunk, bPend := chunk, bEof := eof);
    } else {
      assert f' == f;
      F.KeepsSelf(f);
    }
  }

  lemma BackendReadKeeps(s: Sys, b: nat, chunk: seq<byte>, eof: bool)
    requires Inv(s)
    ensures Inv(Next(s, BackendRead(b, chunk, eof))) && Evolves(s, Next(s, BackendRead(b, chunk, eof)))
  {
    hide F.Sound, F.Later, FlowOf, StreamOK, NodesOK, CtrlOK, SegOK, ClientsOK;
    var s' := Next(s, BackendRead(b, chunk, eof));
    BackendTables(s, s');
    SameStreams(s, s');
    forall k | k in s.hist ensures F.Keeps(FlowOf(s, k), FlowOf(s', k)) {
      BackendReadFlow(s, b, chunk, eof, k);
    }
  }
}
