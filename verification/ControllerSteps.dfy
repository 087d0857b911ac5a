/** The controller's handlers keep the invariant. */
module ControllerSteps {
  import opened Frames
  import opened Connections
  import opened Reassembly
  import opened System
  import opened Invariant
  import opened Streams
  import F = Flow
  import C = Controller

  // ---------------------------------------------------------------------------
  // Tables

  /** The same connections are known, with the same client, opening and backend. */
  predicate SameFacts(h: map<Key, Hist>, h': map<Key, Hist>) {
    && h'.Keys == h.Keys
    && forall k :: k in h ==> h'[k].client == h[k].client && h'[k].open == h[k].open && h'[k].backend == h[k].backend
  }

  /** No client lost anything that was read from it. */
  predicate ReadGrows(a: seq<C.Client>, b: seq<C.Client>) {
    |a| <= |b| && forall n :: 0 <= n < |a| ==> |a[n].read| <= |b[n].read|
  }

  lemma HistKept(s: Sys, s': Sys)
    requires HistOK(s) && SameFacts(s.hist, s'.hist)
    requires Width(s') == Width(s) && s'.seg.backends == s.seg.backends && ReadGrows(s.ctrl.clients, s'.ctrl.clients)
    ensures HistOK(s')
  {
    forall k | k in s.hist ensures InRange(s', k) {
      assert InRange(s, k);
    }
  }

  /** Old clients are as good as they were when what is pending on them is unchanged or gone. */
  lemma ClientsKept(s: Sys, s': Sys)
    requires ClientsOK(s) && |s'.ctrl.clients| == |s.ctrl.clients|
    requires forall k :: k in s.hist ==> k in s'.hist && s'.hist[k].client == s.hist[k].client
    requires forall n :: 0 <= n < |s.ctrl.clients| ==>
      var cl, cl' := s.ctrl.clients[n], s'.ctrl.clients[n];
      cl'.read == cl.read && cl'.log == cl.log && (cl'.pend == cl.pend || cl'.pend == [])
    ensures ClientsOK(s')
  {
    forall n | 0 <= n < |s.ctrl.clients| ensures ClientOK(s'.hist, n, s'.ctrl.clients[n]) {
      assert ClientOK(s.hist, n, s.ctrl.clients[n]);
      forall p | p in s.ctrl.clients[n].log ensures PieceOK(s'.hist, n, p) {
        assert PieceOK(s.hist, n, p);
      }
    }
  }

  lemma SegmentKept(s: Sys, s': Sys)
    requires SegOK(s) && BackendsOK(s) && SameFacts(s.hist, s'.hist)
    requires s'.seg.conns == s.seg.conns && s'.seg.backends == s.seg.backends && s'.seg.now == s.seg.now
    ensures SegOK(s') && BackendsOK(s')
  {
  }

  lemma TouchLive(conns: seq<Conn>, dead: set<nat>, dead': set<nat>, sel: Sel, op: byte, flags: byte, now: int)
    requires LiveOK(conns, dead) && dead <= dead'
    requires forall c :: c in Touch(conns, sel, op, flags, now) && c.state != CLOSED ==> c.south !in dead' - dead
    ensures LiveOK(Touch(conns, sel, op, flags, now), dead')
  {
    hide Hit;
    var r := Touch(conns, sel, op, flags, now);
    forall i | 0 <= i < |r| ensures conns[i] in conns && r[i].north == conns[i].north && r[i].south == conns[i].south
      && r[i].uuid == conns[i].uuid && (r[i].state != CLOSED ==> conns[i].state != CLOSED) {}
    forall c | c in r && c.state != CLOSED ensures c.south !in dead' {
      var i :| 0 <= i < |r| && r[i] == c;
      assert conns[i] in conns;
    }
    forall c, d | c in r && d in r && c.north == d.north && c.south == d.south && c.south !in dead' ensures c.uuid == d.uuid {
      var i :| 0 <= i < |r| && r[i] == c;
      var j :| 0 <= j < |r| && r[j] == d;
      assert conns[i] in conns && conns[j] in conns;
    }
  }

  lemma TouchKept(s: Sys, s': Sys, sel: Sel, op: byte, flags: byte)
    requires CtrlOK(s) && SameFacts(s.hist, s'.hist)
    requires s'.ctrl.conns == Touch(s.ctrl.conns, sel, op, flags, s.ctrl.now) && s'.ctrl.now == s.ctrl.now
    requires s.ctrl.dead <= s'.ctrl.dead
    requires forall c :: c in s'.ctrl.conns && c.state != CLOSED ==> c.south !in s'.ctrl.dead - s.ctrl.dead
    ensures CtrlOK(s')
  {
    hide Hit, StateUpdate, Lawful, LiveOK;
    TouchDistinct(s.ctrl.conns, AtController, sel, op, flags, s.ctrl.now);
    TouchLive(s.ctrl.conns, s.ctrl.dead, s'.ctrl.dead, sel, op, flags, s.ctrl.now);
    forall i | 0 <= i < |s.ctrl.conns|
      ensures Lawful(s'.ctrl.conns[i], s.ctrl.now) && KeyOf(AtController, s'.ctrl.conns[i]) == KeyOf(AtController, s.ctrl.conns[i])
    {
      StateUpdateIsLawful(s.ctrl.conns[i], op, flags, s.ctrl.now, s.ctrl.now);
    }
  }

  lemma DropKept(s: Sys, s': Sys, sel: Sel)
    requires CtrlOK(s) && s'.hist == s.hist && s'.ctrl.dead == s.ctrl.dead
    requires s'.ctrl.conns == Drop(s.ctrl.conns, sel) && s'.ctrl.now == s.ctrl.now
    ensures CtrlOK(s')
  {
    hide Hit, Lawful;
    DropDistinct(s.ctrl.conns, AtController, sel);
    DropMembers(s.ctrl.conns, sel);
    forall i | 0 <= i < |s'.ctrl.conns| ensures exists j :: 0 <= j < |s.ctrl.conns| && s.ctrl.conns[j] == s'.ctrl.conns[i] {
      assert s'.ctrl.conns[i] in s.ctrl.conns;
    }
  }

  lemma ConnsRegistered(s: Sys)
    requires CtrlOK(s)
    ensures Registered(s.hist, s.ctrl.conns, AtController) && Distinct(s.ctrl.conns, AtController)
  {
  }

  /** Entry and history agree on who the client is. */
  lemma EntryOf(s: Sys, k: Key)
    requires CtrlOK(s) && Find(s.ctrl.conns, AtController, k).Some?
    ensures k in s.hist && Find(s.ctrl.conns, AtController, k).value.north == s.hist[k].client
    ensures Find(s.ctrl.conns, AtController, k).value.south == k.t
    ensures Lawful(Find(s.ctrl.conns, AtController, k).value, s.ctrl.now)
  {
    hide Find, Lawful;
    var i := FindIndex(s.ctrl.conns, AtController, k);
  }

  // ---------------------------------------------------------------------------
  // Fan-out

  /** The opcode that tells the other side about the client's news. */
  function Spoken(cl: C.Client): byte {
    if cl.eof then STOP else DATA
  }

  function FannedOut(s: Sys, n: nat): (s': Sys)
    requires Valid(s) && C.Speaks(s.ctrl, n)
    ensures Valid(s')
  {
    s.(ctrl := C.FanOut(s.ctrl, n), hist := FanOutHist(s, n))
  }

  lemma FanOutTables(s: Sys, n: nat)
    requires Valid(s) && C.Speaks(s.ctrl, n) && Tables(s)
    ensures Tables(FannedOut(s, n)) && SameFacts(s.hist, FanOutHist(s, n))
  {
    hide Hit, StateUpdate, Lawful, Served, Find, Notify, HistOK, SegOK, BackendsOK, ClientOK, C.Refuses;
    var s' := FannedOut(s, n);
    assert SameFacts(s.hist, s'.hist);
    HistKept(s, s');
    SegmentKept(s, s');
    TouchKept(s, s', ServingNorth(n, s.ctrl.dead), Spoken(s.ctrl.clients[n]), 0);
    ClientsKept(s, s');
  }

  lemma FanOutStreams(s: Sys, n: nat, t: nat)
    requires Valid(s) && C.Speaks(s.ctrl, n) && Tables(s) && t < Width(s) && StreamOK(s, t)
    ensures var s' := FannedOut(s, n);
      var cl := s.ctrl.clients[n];
      && StreamOK(s', t) && UpQ(s', t) == UpQ(s, t)
      && DownQ(s', t) == DownQ(s, t) + Addressed(s.ctrl.conns, AtController, ServingNorth(n, s.ctrl.dead), Spoken(cl), 0, cl.pend, t)
  {
    hide FrameStream, Parse, EncodeAll, Addressed, Hit, StateUpdate, Lawful, Served, StreamOK;
    var cl := s.ctrl.clients[n];
    ConnsRegistered(s);
    NotifyDown(s, FannedOut(s, n), s.ctrl.conns, ServingNorth(n, s.ctrl.dead), Spoken(cl), 0, cl.pend, t);
  }

  /** A connection is served exactly if the controller still speaks for this client on it. */
  lemma ServedMeansServing(s: Sys, n: nat, k: Key)
    requires Inv(s) && C.Speaks(s.ctrl, n) && k in s.hist
    ensures Served(s, n, k) <==> s.hist[k].client == n && F.Serving(FlowOf(s, k))
    ensures Served(s, n, k) ==> C.AnyHit(s.ctrl.conns, ServingNorth(n, s.ctrl.dead))
  {
    hide F.Sound, F.Later, Parse, Find, Proj, Got, StreamOK, Lawful;
    assert InRange(s, k);
    if Find(s.ctrl.conns, AtController, k).Some? {
      EntryOf(s, k);
      var i := FindIndex(s.ctrl.conns, AtController, k);
    }
  }

  lemma FanOutFlow(s: Sys, n: nat, k: Key)
    requires Inv(s) && C.Speaks(s.ctrl, n) && k in s.hist
    ensures InRange(FannedOut(s, n), k)
    ensures var f, f' := FlowOf(s, k), FlowOf(FannedOut(s, n), k);
      var op := Spoken(s.ctrl.clients[n]);
      if Served(s, n, k) then
        f' == f.(conn := Some(NextState(f.conn.value, op, 0)), sent := f.sent + f.pend, down := f.down + [Frame(k.u, op, 0, f.pend)], pend := [])
      else if s.hist[k].client == n && C.AnyHit(s.ctrl.conns, ServingNorth(n, s.ctrl.dead)) then
        f' == f.(pend := [])
      else f' == f
  {
    hide F.Sound, F.Later, FlowsOK, NodesOK, FrameStream, Parse, EncodeAll, Addressed, Find, Proj, Got, StreamOK, CtrlOK, SegOK, Hit, ClientsOK, BackendsOK,
      NextState, C.Refuses, C.AnyHit, F.Serving;
    var cl := s.ctrl.clients[n];
    var op, sel := Spoken(cl), ServingNorth(n, s.ctrl.dead);
    ConnsRegistered(s);
    assert InRange(s, k) && StreamOK(s, k.t);
    FanOutStreams(s, n, k.t);
    ShareOf(DownQ(s, k.t), s.ctrl.conns, AtController, sel, op, 0, cl.pend, k);
    TouchState(s.ctrl.conns, AtController, sel, op, 0, s.ctrl.now, k);
    ServedMeansServing(s, n, k);
    assert FlowOf(s, k).down + [] == FlowOf(s, k).down;
  }

  lemma SameEof(s: Sys, k: Key)
    requires Valid(s) && k in s.hist && InRange(s, k)
    ensures FlowOf(s, k).eof == s.ctrl.clients[s.hist[k].client].eof
  {
  }

  lemma FanOutKeeps(s: Sys, n: nat)
    requires Inv(s) && C.Speaks(s.ctrl, n)
    ensures Inv(FannedOut(s, n)) && Evolves(s, FannedOut(s, n))
  {
    hide F.Sound, F.Later, FlowOf, StreamOK, Served;
    var s' := FannedOut(s, n);
    FanOutTables(s, n);
    forall t | 0 <= t < Width(s') ensures StreamOK(s', t) {
      FanOutStreams(s, n, t);
    }
    forall k | k in s'.hist ensures F.Keeps(FlowOf(s, k), FlowOf(s', k)) {
      FanOutFlow(s, n, k);
      ServedMeansServing(s, n, k);
      var f := FlowOf(s, k);
      F.KeepsSelf(f);
      if Served(s, n, k) {
        SameEof(s, k);
        F.FanOutKeeps(f, Frame(k.u, Spoken(s.ctrl.clients[n]), 0, f.pend));
      } else if s.hist[k].client == n {
        F.PassedOverKeeps(f);
      }
    }
  }

  // ---------------------------------------------------------------------------
  // A new session

  function ConnectedTo(s: Sys, n: nat, ts: seq<nat>, u: Uuid): (s': Sys)
    requires Valid(s) && n < |s.ctrl.clients| && MayConnect(s, ts, u)
    ensures Valid(s')
  {
    s.(ctrl := C.Connect(s.ctrl, n, ts, u), hist := s.hist + ConnectHist(s.ctrl, n, ts, u))
  }

  /** Client `n` has a first chunk and no connection. */
  predicate Ready(s: Sys, n: nat) {
    && n < |s.ctrl.clients| && s.ctrl.clients[n].alive && !s.ctrl.clients[n].eof
    && !C.Connected(s.ctrl.conns, n, s.ctrl.dead)
  }

  function Made(s: Sys, n: nat, ts: seq<nat>, u: Uuid): seq<Conn> {
    C.NewConns(s.ctrl.mode, u, n, ts, s.ctrl.now)
  }

  lemma {:induction false} BumpKeepsNode(u: Uuid, i: nat)
    ensures Node(C.BumpBy(u, i)) == Node(u)
  {
    if i > 0 {
      BumpKeepsNode(u, i - 1);
    }
  }

  /** The keys of a new session are new, and the entries made for it are theirs. */
  lemma NewSession(s: Sys, n: nat, ts: seq<nat>, u: Uuid)
    requires MayConnect(s, ts, u)
    ensures forall k :: k in NewKeys(s.ctrl.mode, u, ts) ==> Node(k.u) == Node(u) && k !in s.hist
    ensures forall i :: 0 <= i < |ts| ==> KeyOf(AtController, Made(s, n, ts, u)[i]) in NewKeys(s.ctrl.mode, u, ts)
    ensures forall k, l :: k in NewKeys(s.ctrl.mode, u, ts) && l in NewKeys(s.ctrl.mode, u, ts) && k.t == l.t ==> k == l
    ensures Distinct(Made(s, n, ts, u), AtController)
  {
    forall i | 0 <= i < |ts| ensures Node(C.UuidAt(s.ctrl.mode, u, i)) == Node(u) {
      BumpKeepsNode(u, i + 1);
    }
  }

  lemma AppendKept(s: Sys, s': Sys, more: seq<Conn>)
    requires CtrlOK(s) && s'.ctrl.conns == s.ctrl.conns + more && s'.ctrl.now == s.ctrl.now && s'.ctrl.dead == s.ctrl.dead
    requires LiveOK(s'.ctrl.conns, s'.ctrl.dead)
    requires forall k :: k in s.hist ==> k in s'.hist && s'.hist[k] == s.hist[k]
    requires Distinct(more, AtController)
    requires forall i :: 0 <= i < |more| ==>
      && KeyOf(AtController, more[i]) !in s.hist && KeyOf(AtController, more[i]) in s'.hist
      && s'.hist[KeyOf(AtController, more[i])].client == more[i].north && Lawful(more[i], s.ctrl.now)
    ensures CtrlOK(s')
  {
    hide Lawful, LiveOK;
    forall i, j | 0 <= i < j < |s'.ctrl.conns| ensures KeyOf(AtController, s'.ctrl.conns[i]) != KeyOf(AtController, s'.ctrl.conns[j]) {
      if j >= |s.ctrl.conns| {
        assert s'.ctrl.conns[j] == more[j - |s.ctrl.conns|];
      }
    }
  }

  lemma ConnectLive(s: Sys, n: nat, ts: seq<nat>, u: Uuid)
    requires LiveOK(s.ctrl.conns, s.ctrl.dead) && Ready(s, n) && MayConnect(s, ts, u)
    ensures LiveOK(s.ctrl.conns + Made(s, n, ts, u), s.ctrl.dead)
  {
    var made := Made(s, n, ts, u);
    forall c | c in made ensures c.north == n && c.south !in s.ctrl.dead {
    }
    forall c | c in s.ctrl.conns && c.north == n ensures c.south in s.ctrl.dead {
      var i :| 0 <= i < |s.ctrl.conns| && s.ctrl.conns[i] == c;
    }
    forall c, d | c in made && d in made && c.south == d.south ensures c.uuid == d.uuid {
      var i :| 0 <= i < |made| && made[i] == c;
      var j :| 0 <= j < |made| && made[j] == d;
      assert ts[i] == ts[j];
    }
  }

  lemma NodesExtend(hist: map<Key, Hist>, more: map<Key, Hist>, node: seq<byte>, n: nat)
    requires NodesOK(hist)
    requires forall k :: k in hist ==> Node(k.u) != node
    requires forall k :: k in more ==> Node(k.u) == node && more[k].client == n
    requires forall k, l :: k in more && l in more && k.t == l.t ==> k == l
    ensures NodesOK(hist + more)
  {
    hide Node;
  }

  lemma ConnectHistOK(s: Sys, n: nat, ts: seq<nat>, u: Uuid)
    requires Valid(s) && HistOK(s) && n < |s.ctrl.clients| && ClientOK(s.hist, n, s.ctrl.clients[n]) && MayConnect(s, ts, u)
    ensures HistOK(ConnectedTo(s, n, ts, u))
  {
    hide C.Refuses, NodesOK, Node, C.UuidAt;
    var s' := ConnectedTo(s, n, ts, u);
    NewSession(s, n, ts, u);
    NodesExtend(s.hist, ConnectHist(s.ctrl, n, ts, u), Node(u), n);
    forall k | k in s'.hist ensures InRange(s', k) {
      if k in s.hist {
        assert InRange(s, k);
      }
    }
  }

  lemma ConnectTables(s: Sys, n: nat, ts: seq<nat>, u: Uuid)
    requires Valid(s) && Tables(s) && Ready(s, n) && MayConnect(s, ts, u)
    ensures Tables(ConnectedTo(s, n, ts, u))
  {
    hide Lawful, C.Refuses, C.Connected, ClientOK, HistOK, Distinct, LiveOK;
    var s' := ConnectedTo(s, n, ts, u);
    NewSession(s, n, ts, u);
    forall i | 0 <= i < |ts| ensures Lawful(Made(s, n, ts, u)[i], s.ctrl.now) {
      FreshIsLawful(C.UuidAt(s.ctrl.mode, u, i), n, ts[i], s.ctrl.now);
    }
    ConnectLive(s, n, ts, u);
    AppendKept(s, s', Made(s, n, ts, u));
    ConnectHistOK(s, n, ts, u);
    ClientsKept(s, s');
  }

  lemma FreshIsLawful(u: Uuid, n: nat, t: nat, now: int)
    ensures Lawful(Make(u, n, t, HALF_OPEN, now), now)
  {
  }

  lemma ConnectStreams(s: Sys, n: nat, ts: seq<nat>, u: Uuid, t: nat)
    requires Valid(s) && Tables(s) && Ready(s, n) && MayConnect(s, ts, u) && t < Width(s) && StreamOK(s, t)
    ensures var s' := ConnectedTo(s, n, ts, u);
      var cl := s.ctrl.clients[n];
      && StreamOK(s', t) && UpQ(s', t) == UpQ(s, t)
      && DownQ(s', t) == if C.Refuses(Made(s, n, ts, u), s.ctrl.outs, n, s.ctrl.dead, |cl.pend|) then DownQ(s, t)
           else DownQ(s, t) + Addressed(Made(s, n, ts, u), AtController, Everyone, DATA, INIT, cl.pend, t)
  {
    hide FrameStream, Parse, EncodeAll, Addressed, C.Refuses, C.Connected, StreamOK;
    var s', cl := ConnectedTo(s, n, ts, u), s.ctrl.clients[n];
    NewSession(s, n, ts, u);
    if C.Refuses(Made(s, n, ts, u), s.ctrl.outs, n, s.ctrl.dead, |cl.pend|) {
      SameStream(s, s', t);
    } else {
      assert Registered(s'.hist, Made(s, n, ts, u), AtController);
      NotifyDown(s, s', Made(s, n, ts, u), Everyone, DATA, INIT, cl.pend, t);
    }
  }

  predicate Turned(s: Sys, n: nat, ts: seq<nat>, u: Uuid)
    requires Valid(s) && n < |s.ctrl.clients| && MayConnect(s, ts, u)
  {
    C.Refuses(Made(s, n, ts, u), s.ctrl.outs, n, s.ctrl.dead, |s.ctrl.clients[n].pend|)
  }

  /** What opening a session does to the connections there already were. */
  lemma ConnectOldFlow(s: Sys, n: nat, ts: seq<nat>, u: Uuid, k: Key)
    requires Inv(s) && Ready(s, n) && MayConnect(s, ts, u) && k in s.hist
    ensures InRange(ConnectedTo(s, n, ts, u), k)
    ensures s.hist[k].client == n ==> !F.Serving(FlowOf(s, k))
    ensures var f, f' := FlowOf(s, k), FlowOf(ConnectedTo(s, n, ts, u), k);
      f' == if s.hist[k].client == n && !Turned(s, n, ts, u) then f.(pend := []) else f
  {
    hide F.Sound, F.Later, FlowsOK, NodesOK, FrameStream, Parse, EncodeAll, Addressed, Proj, Got, StreamOK, SegOK, ClientsOK, BackendsOK, C.Refuses, Lawful;
    var s', made := ConnectedTo(s, n, ts, u), Made(s, n, ts, u);
    assert InRange(s, k) && StreamOK(s, k.t);
    NewSession(s, n, ts, u);
    ConnectStreams(s, n, ts, u, k.t);
    assert Find(made, AtController, k).None? by {
      if Find(made, AtController, k).Some? {
        var i := FindIndex(made, AtController, k);
        assert false;
      }
    }
    FindAppend(s.ctrl.conns, made, AtController, k);
    ShareOf(DownQ(s, k.t), made, AtController, Everyone, DATA, INIT, s.ctrl.clients[n].pend, k);
    assert FlowOf(s, k).down + [] == FlowOf(s, k).down;
    if Find(s.ctrl.conns, AtController, k).Some? {
      EntryOf(s, k);
      var i := FindIndex(s.ctrl.conns, AtController, k);
    }
  }

  lemma {:induction false} GotNothing(hist: map<Key, Hist>, n: nat, log: seq<C.Piece>, k: Key)
    requires k !in hist && forall p :: p in log ==> PieceOK(hist, n, p)
    ensures Got(log, k) == []
  {
    if log != [] {
      assert log[|log| - 1] in log;
      GotNothing(hist, n, log[..|log| - 1], k);
    }
  }

  /** Before it is made, a connection is nowhere to be seen. */
  lemma NothingYet(s: Sys, n: nat, k: Key)
    requires Valid(s) && Tables(s) && k !in s.hist && k.t < Width(s) && StreamOK(s, k.t) && n < |s.ctrl.clients|
    ensures Proj(DownQ(s, k.t), k.u) == [] && Proj(UpQ(s, k.t), k.u) == []
    ensures Find(s.ctrl.conns, AtController, k).None? && Find(s.seg.conns, AtSegment, k).None?
    ensures Got(s.ctrl.clients[n].log, k) == []
  {
    hide Find, Proj, Parse, Got, Lawful, FrameStream;
    ProjNone(DownQ(s, k.t), k.u);
    ProjNone(UpQ(s, k.t), k.u);
    assert ClientOK(s.hist, n, s.ctrl.clients[n]);
    GotNothing(s.hist, n, s.ctrl.clients[n].log, k);
    if Find(s.ctrl.conns, AtController, k).Some? {
      var i := FindIndex(s.ctrl.conns, AtController, k);
      assert false;
    }
    if Find(s.seg.conns, AtSegment, k).Some? {
      var i := FindIndex(s.seg.conns, AtSegment, k);
      assert false;
    }
  }

  lemma MadeFind(s: Sys, n: nat, ts: seq<nat>, u: Uuid, k: Key)
    requires MayConnect(s, ts, u) && k in NewKeys(s.ctrl.mode, u, ts)
    ensures Find(Made(s, n, ts, u), AtController, k).Some? && Find(Made(s, n, ts, u), AtController, k).value.state == HALF_OPEN
  {
    hide Find;
    NewSession(s, n, ts, u);
    var i :| 0 <= i < |ts| && k == Key(ts[i], C.UuidAt(s.ctrl.mode, u, i));
    FindAt(Made(s, n, ts, u), AtController, i);
  }

  /** What there is of a connection once it has been made. */
  lemma ConnectNewParts(s: Sys, n: nat, ts: seq<nat>, u: Uuid, k: Key)
    requires Inv(s) && Ready(s, n) && MayConnect(s, ts, u) && k in NewKeys(s.ctrl.mode, u, ts)
    ensures k.t < Width(s)
    ensures var s' := ConnectedTo(s, n, ts, u);
      && Proj(DownQ(s', k.t), k.u) == (if Turned(s, n, ts, u) then [] else [Frame(k.u, DATA, INIT, s.ctrl.clients[n].pend)])
      && Proj(UpQ(s', k.t), k.u) == []
      && StateOf(Find(s'.ctrl.conns, AtController, k)) == Some(HALF_OPEN) && Find(s'.seg.conns, AtSegment, k).None?
      && Got(s.ctrl.clients[n].log, k) == []
  {
    hide F.Sound, F.Later, FlowsOK, NodesOK, FrameStream, Parse, EncodeAll, Addressed, Find, Proj, Got, StreamOK, SegOK, BackendsOK, ClientsOK, CtrlOK, C.Refuses, Lawful, C.UuidAt;
    var made, cl := Made(s, n, ts, u), s.ctrl.clients[n];
    NewSession(s, n, ts, u);
    assert k.t < Width(s) && StreamOK(s, k.t);
    NothingYet(s, n, k);
    ConnectStreams(s, n, ts, u, k.t);
    MadeFind(s, n, ts, u, k);
    FindAppend(s.ctrl.conns, made, AtController, k);
    ShareOf(DownQ(s, k.t), made, AtController, Everyone, DATA, INIT, cl.pend, k);
    var x := Frame(k.u, DATA, INIT, cl.pend);
    assert [] + [x] == [x];
  }

  lemma ConnectedIs(s: Sys, n: nat, ts: seq<nat>, u: Uuid, k: Key)
    requires Valid(s) && n < |s.ctrl.clients| && MayConnect(s, ts, u) && k in NewKeys(s.ctrl.mode, u, ts)
    ensures var s', cl := ConnectedTo(s, n, ts, u), s.ctrl.clients[n];
      && |s'.ctrl.clients| == |s.ctrl.clients| && s'.ctrl.dead == s.ctrl.dead
      && s'.ctrl.clients[n] == (if Turned(s, n, ts, u) then cl else cl.(pend := []))
      && k in s'.hist && s'.hist[k] == ConnectHist(s.ctrl, n, ts, u)[k] && k.t !in s.ctrl.dead
  {
    hide C.Refuses, C.UuidAt, Notify;
  }

  lemma ConnectNewFlow(s: Sys, n: nat, ts: seq<nat>, u: Uuid, k: Key)
    requires Inv(s) && Ready(s, n) && MayConnect(s, ts, u) && k in NewKeys(s.ctrl.mode, u, ts)
    ensures k in ConnectedTo(s, n, ts, u).hist && InRange(ConnectedTo(s, n, ts, u), k)
    ensures F.Sound(FlowOf(ConnectedTo(s, n, ts, u), k))
  {
    hide F.Sound, FlowsOK, NodesOK, Find, Proj, Got, Parse, StreamsOK, SegOK, BackendsOK, CtrlOK, C.Refuses, C.UuidAt, ConnectedTo, NewKeys, MayConnect;
    var s', cl := ConnectedTo(s, n, ts, u), s.ctrl.clients[n];
    assert ClientOK(s.hist, n, cl);
    ConnectHistOK(s, n, ts, u);
    ConnectedIs(s, n, ts, u, k);
    ConnectNewParts(s, n, ts, u, k);
    assert FlowOf(s', k).since == cl.pend;
    F.ConnectIsSound(cl.pend, Frame(k.u, DATA, INIT, cl.pend), Turned(s, n, ts, u));
  }

  lemma ConnectNodes(s: Sys, n: nat, ts: seq<nat>, u: Uuid)
    requires Valid(s) && n < |s.ctrl.clients| && MayConnect(s, ts, u)
    ensures NewNodes(s.hist, ConnectedTo(s, n, ts, u).hist)
  {
    hide C.Refuses, C.UuidAt;
    NewSession(s, n, ts, u);
  }

  lemma ConnectKeeps(s: Sys, n: nat, ts: seq<nat>, u: Uuid)
    requires Inv(s) && Ready(s, n) && MayConnect(s, ts, u)
    ensures Inv(ConnectedTo(s, n, ts, u)) && Evolves(s, ConnectedTo(s, n, ts, u))
  {
    hide F.Sound, F.Later, FlowOf, StreamOK, Turned, NodesOK, NewNodes, CtrlOK, SegOK, ClientsOK, BackendsOK, C.Connect;
    var s' := ConnectedTo(s, n, ts, u);
    ConnectTables(s, n, ts, u);
    forall t | 0 <= t < Width(s') ensures StreamOK(s', t) {
      ConnectStreams(s, n, ts, u, t);
    }
    forall k | k in s.hist ensures F.Keeps(FlowOf(s, k), FlowOf(s', k)) {
      ConnectOldFlow(s, n, ts, u, k);
      F.KeepsSelf(FlowOf(s, k));
      if s.hist[k].client == n {
        F.PassedOverKeeps(FlowOf(s, k));
      }
    }
    forall k | k in s'.hist && k !in s.hist ensures F.Sound(FlowOf(s', k)) {
      ConnectNewFlow(s, n, ts, u, k);
    }
    ConnectNodes(s, n, ts, u);
  }

  lemma NorthRouteKeeps(s: Sys, n: nat, ts: seq<nat>, u: Uuid)
    requires Inv(s)
    ensures Inv(Next(s, NorthRoute(n, ts, u))) && Evolves(s, Next(s, NorthRoute(n, ts, u)))
  {
    hide Tables, Evolves, StreamsOK, FlowsOK, C.FanOut, C.Connect, FanOutHist, ConnectHist, C.Refuses;
    EvolvesSelf(s);
    if C.Speaks(s.ctrl, n) {
      FanOutKeeps(s, n);
      if C.Connects(s.ctrl, n) && MayConnect(s, ts, u) {
        StillReady(s, n, ts, u);
        ConnectKeeps(FannedOut(s, n), n, ts, u);
        EvolvesTransitive(s, FannedOut(s, n), Next(s, NorthRoute(n, ts, u)));
      }
    }
  }

  lemma StillReady(s: Sys, n: nat, ts: seq<nat>, u: Uuid)
    requires Valid(s) && C.Connects(s.ctrl, n) && MayConnect(s, ts, u)
    ensures Ready(FannedOut(s, n), n) && MayConnect(FannedOut(s, n), ts, u)
  {
    hide C.Refuses, Served, StateUpdate;
  }
}
