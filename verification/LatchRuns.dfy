/** Two runs of a half-duplex session with two backends, step by step. */
module LatchRuns {
  import opened Frames
  import opened Connections
  import opened Reassembly
  import opened System
  import opened Theorems
  import C = Controller
  import G = Segment

  // ---------------------------------------------------------------------------
  // Runs, piece by piece

  lemma {:induction false} ExecAppend(s: Sys, a: seq<Step>, b: seq<Step>)
    requires Valid(s)
    ensures Exec(s, a + b) == Exec(Exec(s, a), b)
    decreases a
  {
    hide Next;
    if a == [] {
      assert a + b == b;
    } else {
      assert (a + b)[0] == a[0] && (a + b)[1..] == a[1..] + b;
      ExecAppend(Next(s, a[0]), a[1..], b);
    }
  }

  lemma ExecOne(s: Sys, a: Step)
    requires Valid(s)
    ensures Exec(s, [a]) == Next(s, a)
  {
    hide Next;
    assert [a][1..] == [];
  }

  lemma ExecTwo(s: Sys, a: Step, b: Step)
    requires Valid(s)
    ensures Exec(s, [a, b]) == Next(Next(s, a), b)
  {
    hide Next;
    assert [a, b] == [a] + [b];
    ExecAppend(s, [a], [b]);
    ExecOne(s, a);
    ExecOne(Next(s, a), b);
  }

  lemma Joined(bs: seq<seq<byte>>, b: seq<byte>, c: seq<byte>)
    ensures |bs| == 0 ==> bs + [b] == [b]
    ensures |bs| == 1 ==> bs + [b] == [bs[0], b]
    ensures [] + c == c
  {
  }

  // ---------------------------------------------------------------------------
  // The session

  /** What the client sends first, then second, and what backends answer. */
  function Hello(u: Uuid): Frame { Frame(u, DATA, INIT, [7]) }
  function Again(u: Uuid): Frame { Frame(u, DATA, 0, [8]) }
  function Answer(u: Uuid): Frame { Frame(u, DATA, 0, [9]) }
  function End(u: Uuid): Frame { Frame(u, STOP, 0, []) }

  /** One client, two transports, and a session of connections in states `a` and `b`; `o` is what waits to be sent on
      the transports, and nothing else is under way. */
  predicate Session(s: Sys, u: Uuid, a: State, b: State, o: seq<seq<byte>>) {
    && Valid(s) && s.ctrl.mode == C.HALF_DUPLEX && s.ctrl.dead == {} && s.seg.dead == {} && Width(s) == 2
    && |s.ctrl.clients| == 1 && s.ctrl.clients[0].alive && !s.ctrl.clients[0].eof
    && s.ctrl.clients[0].pend == [] && s.ctrl.clients[0].unsent == 0
    && |s.ctrl.conns| == 2 && Entry(s.ctrl.conns[0], u, 0, a) && Entry(s.ctrl.conns[1], u, 1, b)
    && |o| == 2 && s.ctrl.outs == o && |o[0]| <= 100 && |o[1]| <= 100
    && s.ctrl.ins == [[], []] && s.seg.ins == [[], []] && s.seg.outs == [[], []]
    && s.downWire == [[], []] && s.upWire == [[], []]
    && Key(0, u) in s.hist && Key(1, u) in s.hist
  }

  predicate Entry(c: Conn, u: Uuid, t: nat, state: State) {
    c.uuid == u && c.north == 0 && c.south == t && c.state == state
  }

  /** The segment's side: `n` connections, the `i`-th from transport `i` to backend `i`. */
  predicate Placed(s: Sys, n: nat) {
    |s.seg.conns| == |s.seg.backends| == n && forall i :: 0 <= i < n ==> s.seg.conns[i].north == i && s.seg.conns[i].south == i
  }

  predicate FreshAt(s: Sys, u: Uuid, i: nat) {
    i < |s.seg.conns| && i < |s.seg.backends| && Fresh(s.seg.conns[i], s.seg.backends[i], u, i)
  }

  /** All of them are new. */
  predicate Served(s: Sys, u: Uuid, n: nat) {
    Placed(s, n) && forall i :: 0 <= i < n ==> FreshAt(s, u, i)
  }

  /** Connection and backend as the first frame made them. */
  predicate Fresh(c: Conn, b: G.Backend, u: Uuid, i: nat) {
    && c.uuid == u && c.north == i && c.south == i && c.state == HALF_OPEN
    && b.key == Key(i, u) && !b.eof && b.read == [] && b.pend == [] && b.unsent <= 1
  }

  lemma EncodeLength(f: Frame)
    ensures |Encode(f)| == HDRLEN + |f.payload|
  {
  }

  /** One frame for each of two connections. */
  lemma TwoAddressed(conns: seq<Conn>, sel: Sel, op: byte, flags: byte, data: seq<byte>, u: Uuid, t: nat)
    requires |conns| == 2 && conns[0].south == 0 && conns[1].south == 1 && conns[0].uuid == u && conns[1].uuid == u && t < 2
    requires Hit(sel, conns[0]) && Hit(sel, conns[1])
    ensures EncodeAll(Addressed(conns, AtController, sel, op, flags, data, t)) == Encode(Frame(u, op, flags, data))
  {
    hide Hit, Encode;
    var f := Frame(u, op, flags, data);
    assert conns[..1][..0] == [];
    assert Addressed(conns[..1], AtController, sel, op, flags, data, t) == if t == 0 then [] + [f] else [];
    assert Addressed(conns, AtController, sel, op, flags, data, t) == [f];
    assert EncodeAll([f]) == Encode(f) + EncodeAll([f][1..]) == Encode(f) + [];
  }

  /** A client, two transports, and the client's first byte. */
  function Opening(u: Uuid): seq<Step> {
    [NewClient, NewTransport] + [NewTransport, ClientRead(0, [7], false)] + [NorthRoute(0, [0, 1], u)]
  }

  /** The state before the first route. */
  predicate Waiting(s: Sys) {
    && Valid(s) && s.ctrl == C.Ctrl(C.HALF_DUPLEX, [], [C.Client(true, false, [7], [7], [], 0)], [[], []], [[], []], {}, 0)
    && s.seg == G.Seg([], [], [[], []], [[], []], {}, 0) && s.downWire == [[], []] && s.upWire == [[], []] && s.hist == map[]
  }

  lemma Waits()
    ensures Waiting(Exec(Exec(Start(C.HALF_DUPLEX), [NewClient, NewTransport]), [NewTransport, ClientRead(0, [7], false)]))
  {
    hide Next, Start, Exec;
    var s := Start(C.HALF_DUPLEX);
    StartIs();
    ExecTwo(s, NewClient, NewTransport);
    OneTransport();
    var m := Next(Next(s, NewClient), NewTransport);
    ExecTwo(m, NewTransport, ClientRead(0, [7], false));
    TwoTransports(m);
    FirstByte(Next(m, NewTransport));
  }

  /** The system with one client and `n` transports, none of them used. */
  predicate Unused(s: Sys, none: seq<seq<byte>>) {
    && Valid(s) && s.ctrl == C.Ctrl(C.HALF_DUPLEX, [], [C.Client(true, false, [], [], [], 0)], none, none, {}, 0)
    && s.seg == G.Seg([], [], none, none, {}, 0) && s.downWire == none && s.upWire == none && s.hist == map[]
  }

  lemma StartIs()
    ensures Valid(Start(C.HALF_DUPLEX))
  {
  }

  lemma OneTransport()
    ensures Unused(Next(Next(Start(C.HALF_DUPLEX), NewClient), NewTransport), [[]])
  {
    hide Next, Unused;
    OneClient();
    MoreTransports(Next(Start(C.HALF_DUPLEX), NewClient), []);
    Joined([], [], []);
  }

  lemma OneClient()
    ensures Unused(Next(Start(C.HALF_DUPLEX), NewClient), [])
  {
  }

  lemma MoreTransports(s: Sys, none: seq<seq<byte>>)
    requires Unused(s, none)
    ensures Unused(Next(s, NewTransport), none + [[]])
  {
  }

  lemma TwoTransports(s: Sys)
    requires Unused(s, [[]])
    ensures Unused(Next(s, NewTransport), [[], []])
  {
    hide Next, Unused;
    MoreTransports(s, [[]]);
    Joined([[]], [], []);
  }

  lemma FirstByte(s: Sys)
    requires Unused(s, [[], []])
    ensures Waiting(Next(s, ClientRead(0, [7], false)))
  {
    var s' := Next(s, ClientRead(0, [7], false));
    Joined([], [], [7]);
    assert s'.ctrl.clients == [C.Client(true, false, [7], [7], [], 0)];
  }

  /** The first route makes the session. */
  lemma SessionOpens(s: Sys, u: Uuid)
    requires Waiting(s)
    ensures var s', hello := Next(s, NorthRoute(0, [0, 1], u)), Encode(Hello(u));
      Session(s', u, HALF_OPEN, HALF_OPEN, [hello, hello]) && Served(s', u, 0)
  {
    hide Next, Session, Encode;
    RouteConnects(s, u);
    ConnectsBoth(s.ctrl, u);
    var s' := Next(s, NorthRoute(0, [0, 1], u));
    EncodeLength(Hello(u));
    SessionIs(s', u);
  }

  predicate Ready(c: C.Ctrl) {
    c == C.Ctrl(C.HALF_DUPLEX, [], [C.Client(true, false, [7], [7], [], 0)], [[], []], [[], []], {}, 0)
  }

  lemma NobodyYet(c: C.Ctrl)
    requires Ready(c)
    ensures C.Valid(c) && C.Speaks(c, 0) && C.Connects(c, 0) && C.FanOut(c, 0) == c
  {
    forall t | 0 <= t < 2 ensures C.FanOut(c, 0).outs[t] == c.outs[t] {}
    assert C.FanOut(c, 0).conns == [] && C.FanOut(c, 0).outs == c.outs;
  }

  lemma ConnectsBoth(c: C.Ctrl, u: Uuid)
    requires Ready(c)
    ensures C.Valid(c)
    ensures var c', hello := C.Connect(c, 0, [0, 1], u), Encode(Hello(u));
      && c' == c.(conns := c'.conns, outs := [hello, hello], clients := [C.Client(true, false, [7], [], [], 0)])
      && |c'.conns| == 2 && Entry(c'.conns[0], u, 0, HALF_OPEN) && Entry(c'.conns[1], u, 1, HALF_OPEN)
  {
    hide Encode, Addressed, EncodeAll;
    var made := C.NewConns(C.HALF_DUPLEX, u, 0, [0, 1], 0);
    TwoAddressed(made, Everyone, DATA, INIT, [7], u, 0);
    TwoAddressed(made, Everyone, DATA, INIT, [7], u, 1);
    assert [] + made == made;
    Joined([], [], Encode(Hello(u)));
    assert C.Connect(c, 0, [0, 1], u).outs == [Encode(Hello(u)), Encode(Hello(u))];
  }

  lemma RouteConnects(s: Sys, u: Uuid)
    requires Waiting(s)
    ensures C.Valid(s.ctrl)
    ensures var s' := Next(s, NorthRoute(0, [0, 1], u));
      && s' == s.(ctrl := C.Connect(s.ctrl, 0, [0, 1], u), hist := s'.hist)
      && Key(0, u) in s'.hist && Key(1, u) in s'.hist
  {
    hide C.Connect, C.FanOut, C.Speaks, C.Connects;
    NobodyYet(s.ctrl);
    var ts := [0, 1];
    assert Key(ts[0], C.UuidAt(C.HALF_DUPLEX, u, 0)) in NewKeys(C.HALF_DUPLEX, u, ts);
    assert Key(ts[1], C.UuidAt(C.HALF_DUPLEX, u, 1)) in NewKeys(C.HALF_DUPLEX, u, ts);
  }

  lemma SessionIs(s: Sys, u: Uuid)
    requires var hello := Encode(Hello(u));
      && s.ctrl == C.Ctrl(C.HALF_DUPLEX, s.ctrl.conns, [C.Client(true, false, [7], [], [], 0)], [hello, hello], [[], []], {}, 0)
      && |hello| == 25 && |s.ctrl.conns| == 2 && Entry(s.ctrl.conns[0], u, 0, HALF_OPEN) && Entry(s.ctrl.conns[1], u, 1, HALF_OPEN)
      && s.seg == G.Seg([], [], [[], []], [[], []], {}, 0) && s.downWire == [[], []] && s.upWire == [[], []]
      && Key(0, u) in s.hist && Key(1, u) in s.hist
    ensures Session(s, u, HALF_OPEN, HALF_OPEN, [Encode(Hello(u)), Encode(Hello(u))]) && Served(s, u, 0)
  {
    hide Encode;
  }

  // ---------------------------------------------------------------------------
  // Transports

  lemma PullsWhole(f: Frame)
    requires Sendable(f)
    ensures Pull([], Encode(f)) == |Encode(f)| && Complete(Encode(f)) && Decode(Encode(f)) == f
  {
    EncodeIsFaithful(f);
    var x := Encode(f);
    assert ([] + x[..HDRLEN])[..20] == x[..20];
  }

  /** A frame that is alone on its way arrives whole. */
  function DownTo(t: nat, n: nat): seq<Step> { [FlushDown(t, n), ReadDown(t, n)] }

  lemma MovesDown(s: Sys, t: nat, f: Frame)
    requires Valid(s) && t < Width(s) && t !in s.ctrl.dead && t !in s.seg.dead && Sendable(f)
    requires s.seg.ins[t] == [] && s.downWire[t] == [] && s.ctrl.outs[t] == Encode(f)
    ensures Exec(s, DownTo(t, |Encode(f)|)) ==
      s.(ctrl := s.ctrl.(outs := s.ctrl.outs[t := []]), seg := s.seg.(ins := s.seg.ins[t := Encode(f)]))
  {
    hide Encode, Next, Pull, Exec;
    var x := Encode(f);
    var m := s.(ctrl := s.ctrl.(outs := s.ctrl.outs[t := []]), downWire := s.downWire[t := x]);
    ExecTwo(s, FlushDown(t, |x|), ReadDown(t, |x|));
    assert Next(s, FlushDown(t, |x|)) == m by { FlushesDown(s, t, x); }
    PullsWhole(f);
    ReadsDown(m, t, x);
    assert m.downWire[t := []] == s.downWire;
  }

  lemma FlushesDown(s: Sys, t: nat, x: seq<byte>)
    requires Valid(s) && t < Width(s) && t !in s.ctrl.dead && s.downWire[t] == [] && s.ctrl.outs[t] == x
    ensures Next(s, FlushDown(t, |x|)) == s.(ctrl := s.ctrl.(outs := s.ctrl.outs[t := []]), downWire := s.downWire[t := x])
  {
    assert [] + x[..|x|] == x && x[|x|..] == [];
  }

  lemma ReadsDown(s: Sys, t: nat, x: seq<byte>)
    requires Valid(s) && t < Width(s) && t !in s.seg.dead && s.downWire[t] == x && s.seg.ins[t] == [] && Pull([], x) == |x|
    ensures Next(s, ReadDown(t, |x|)) == s.(seg := s.seg.(ins := s.seg.ins[t := x]), downWire := s.downWire[t := []])
  {
    hide Pull;
    assert x[..|x|] == x && [] + x == x && x[|x|..] == [];
  }

  function UpTo(t: nat, n: nat): seq<Step> { [FlushUp(t, n), ReadUp(t, n)] }

  lemma MovesUp(s: Sys, t: nat, f: Frame)
    requires Valid(s) && t < Width(s) && t !in s.ctrl.dead && t !in s.seg.dead && Sendable(f)
    requires s.ctrl.ins[t] == [] && s.upWire[t] == [] && s.seg.outs[t] == Encode(f)
    ensures Exec(s, UpTo(t, |Encode(f)|)) ==
      s.(seg := s.seg.(outs := s.seg.outs[t := []]), ctrl := s.ctrl.(ins := s.ctrl.ins[t := Encode(f)]))
  {
    hide Encode, Next, Pull, Exec;
    var x := Encode(f);
    var m := s.(seg := s.seg.(outs := s.seg.outs[t := []]), upWire := s.upWire[t := x]);
    ExecTwo(s, FlushUp(t, |x|), ReadUp(t, |x|));
    assert Next(s, FlushUp(t, |x|)) == m by { FlushesUp(s, t, x); }
    PullsWhole(f);
    ReadsUp(m, t, x);
    assert m.upWire[t := []] == s.upWire;
  }

  lemma FlushesUp(s: Sys, t: nat, x: seq<byte>)
    requires Valid(s) && t < Width(s) && t !in s.seg.dead && s.upWire[t] == [] && s.seg.outs[t] == x
    ensures Next(s, FlushUp(t, |x|)) == s.(seg := s.seg.(outs := s.seg.outs[t := []]), upWire := s.upWire[t := x])
  {
    assert [] + x[..|x|] == x && x[|x|..] == [];
  }

  lemma ReadsUp(s: Sys, t: nat, x: seq<byte>)
    requires Valid(s) && t < Width(s) && t !in s.ctrl.dead && s.upWire[t] == x && s.ctrl.ins[t] == [] && Pull([], x) == |x|
    ensures Next(s, ReadUp(t, |x|)) == s.(ctrl := s.ctrl.(ins := s.ctrl.ins[t := x]), upWire := s.upWire[t := []])
  {
    hide Pull;
    assert x[..|x|] == x && [] + x == x && x[|x|..] == [];
  }

  // ---------------------------------------------------------------------------
  // The first frame reaches a segment

  function Delivery(t: nat): seq<Step> { DownTo(t, 25) + [SegNorth(t)] }

  lemma Delivered(s: Sys, u: Uuid, a: State, b: State, o: seq<seq<byte>>, t: nat)
    requires Session(s, u, a, b, o) && t < 2 && Served(s, u, t) && o[t] == Encode(Hello(u))
    ensures var s' := Exec(s, Delivery(t));
      Session(s', u, a, b, o[t := []]) && Served(s', u, t + 1)
  {
    hide Encode, Next, Exec, Decode, Complete;
    var x := Encode(Hello(u));
    EncodeLength(Hello(u));
    PullsWhole(Hello(u));
    MovesDown(s, t, Hello(u));
    ExecAppend(s, DownTo(t, 25), [SegNorth(t)]);
    var m := Exec(s, DownTo(t, 25));
    ExecOne(m, SegNorth(t));
    MakesBackend(m, u, t);
    forall i | 0 <= i < t + 1 ensures FreshAt(Next(m, SegNorth(t)), u, i) {
      assert i < t ==> FreshAt(s, u, i) && FreshAt(m, u, i);
    }
    assert [[], []][t := x][t := []] == [[], []];
  }

  lemma MakesBackend(s: Sys, u: Uuid, t: nat)
    requires Valid(s) && t < Width(s) && s.seg.dead == {} && Placed(s, t) && Key(t, u) in s.hist
    requires Complete(s.seg.ins[t]) && Decode(s.seg.ins[t]) == Hello(u)
    ensures var s' := Next(s, SegNorth(t));
      && s' == s.(seg := s.seg.(ins := s.seg.ins[t := []], conns := s'.seg.conns, backends := s'.seg.backends), hist := s'.hist)
      && s'.hist.Keys == s.hist.Keys
      && Placed(s', t + 1) && FreshAt(s', u, t) && forall i :: 0 <= i < t ==> FreshAt(s, u, i) ==> FreshAt(s', u, i)
  {
    hide Complete, Decode, MakeTimes;
    assert G.MatchKey(s.seg.conns, Key(t, u)) == |s.seg.conns|;
    assert G.Judge(s.seg, t, Hello(u)) == G.Open;
  }

  // ---------------------------------------------------------------------------
  // The client sends again

  function SecondChunk(u: Uuid): seq<Step> { [ClientRead(0, [8], false), NorthRoute(0, [0, 1], u)] }

  lemma SentAgain(s: Sys, u: Uuid, o: seq<seq<byte>>)
    requires Session(s, u, HALF_OPEN, HALF_OPEN, o) && |o[0]| <= 75 && |o[1]| <= 75
    ensures var s', again := Exec(s, SecondChunk(u)), Encode(Again(u));
      Session(s', u, OPEN, OPEN, [o[0] + again, o[1] + again]) && s'.seg == s.seg
  {
    hide Encode, Next, Exec, C.FanOut, C.ClientRead;
    ExecTwo(s, ClientRead(0, [8], false), NorthRoute(0, [0, 1], u));
    var m := Next(s, ClientRead(0, [8], false));
    ReadsAgain(s, u, o);
    SpeaksAgain(m.ctrl, u);
    RoutesAgain(m, u);
    EncodeLength(Again(u));
  }

  /** A session with a chunk to send. */
  predicate Loaded(c: C.Ctrl, u: Uuid) {
    && C.Valid(c) && c.dead == {} && |c.outs| == 2 && |c.outs[0]| <= 75 && |c.outs[1]| <= 75
    && |c.clients| == 1 && c.clients[0].alive && !c.clients[0].eof && c.clients[0].pend == [8]
    && |c.conns| == 2 && Entry(c.conns[0], u, 0, HALF_OPEN) && Entry(c.conns[1], u, 1, HALF_OPEN)
  }

  lemma ReadsAgain(s: Sys, u: Uuid, o: seq<seq<byte>>)
    requires Session(s, u, HALF_OPEN, HALF_OPEN, o) && |o[0]| <= 75 && |o[1]| <= 75
    ensures var s' := Next(s, ClientRead(0, [8], false));
      && s' == s.(ctrl := s.ctrl.(clients := s'.ctrl.clients)) && Loaded(s'.ctrl, u) && s'.ctrl.clients[0].unsent == 0
  {
  }

  lemma SpeaksAgain(c: C.Ctrl, u: Uuid)
    requires Loaded(c, u)
    ensures C.Speaks(c, 0) && !C.Connects(c, 0)
    ensures var c', again := C.FanOut(c, 0), Encode(Again(u));
      && c' == c.(conns := c'.conns, outs := [c.outs[0] + again, c.outs[1] + again], clients := [c.clients[0].(pend := [])])
      && |c'.conns| == 2 && Entry(c'.conns[0], u, 0, OPEN) && Entry(c'.conns[1], u, 1, OPEN)
  {
    hide Encode, Addressed, EncodeAll;
    var sel := ServingNorth(0, {});
    assert Hit(sel, c.conns[0]) && Hit(sel, c.conns[1]);
    assert C.Connected(c.conns, 0, {}) && C.AnyHit(c.conns, sel);
    TwoAddressed(c.conns, sel, DATA, 0, [8], u, 0);
    TwoAddressed(c.conns, sel, DATA, 0, [8], u, 1);
    assert C.FanOut(c, 0).outs == [c.outs[0] + Encode(Again(u)), c.outs[1] + Encode(Again(u))];
    assert C.FanOut(c, 0).clients == [c.clients[0].(pend := [])];
  }

  lemma RoutesAgain(s: Sys, u: Uuid)
    requires Valid(s) && C.Speaks(s.ctrl, 0) && !C.Connects(s.ctrl, 0)
    ensures var s' := Next(s, NorthRoute(0, [0, 1], u));
      s' == s.(ctrl := C.FanOut(s.ctrl, 0), hist := s'.hist) && s'.hist.Keys == s.hist.Keys
  {
    hide C.FanOut, C.Speaks, C.Connects;
  }

  // ---------------------------------------------------------------------------
  // A backend answers

  function Said(u: Uuid, chunk: seq<byte>, eof: bool): Frame { Frame(u, if eof then STOP else DATA, 0, chunk) }

  function Reply(t: nat, chunk: seq<byte>, eof: bool): seq<Step> {
    [BackendRead(t, chunk, eof), SegSouth(t)] + UpTo(t, 24 + |chunk|)
  }

  lemma Replied(s: Sys, u: Uuid, a: State, b: State, o: seq<seq<byte>>, n: nat, t: nat, chunk: seq<byte>, eof: bool)
    requires Session(s, u, a, b, o) && Placed(s, n) && t < n <= 2 && FreshAt(s, u, t)
    requires |chunk| <= 1 && (eof || chunk != [])
    ensures var s' := Exec(s, Reply(t, chunk, eof));
      && s'.ctrl == s.ctrl.(ins := [[], []][t := Encode(Said(u, chunk, eof))])
      && Session(s'.(ctrl := s.ctrl), u, a, b, o) && Placed(s', n)
      && forall i :: 0 <= i < n && i != t && FreshAt(s, u, i) ==> FreshAt(s', u, i)
  {
    hide Encode, Next, Exec, G.SouthRoute, G.BackendRead;
    var x := Said(u, chunk, eof);
    ExecAppend(s, [BackendRead(t, chunk, eof), SegSouth(t)], UpTo(t, 24 + |chunk|));
    ExecTwo(s, BackendRead(t, chunk, eof), SegSouth(t));
    var m := Next(s, BackendRead(t, chunk, eof));
    BackendSays(s, u, n, t, chunk, eof);
    SegmentSends(m, u, n, t, chunk, eof);
    var m' := Next(m, SegSouth(t));
    EncodeLength(x);
    MovesUp(m', t, x);
    assert [[], []][t := Encode(x)][t := []] == [[], []];
    forall i | 0 <= i < n && i != t && FreshAt(s, u, i) ensures FreshAt(Exec(s, Reply(t, chunk, eof)), u, i) {
      assert FreshAt(m, u, i) && FreshAt(m', u, i);
    }
  }

  /** The backend on transport `t` has something to say. */
  predicate Saying(s: Sys, u: Uuid, n: nat, t: nat, chunk: seq<byte>, eof: bool) {
    && Valid(s) && s.seg.dead == {} && Width(s) == 2 && s.seg.outs == [[], []] && Placed(s, n) && t < n <= 2
    && s.seg.conns[t].uuid == u && s.seg.conns[t].state == HALF_OPEN
    && s.seg.backends[t].key == Key(t, u) && s.seg.backends[t].pend == chunk && s.seg.backends[t].eof == eof
    && Key(t, u) in s.hist
  }

  lemma BackendSays(s: Sys, u: Uuid, n: nat, t: nat, chunk: seq<byte>, eof: bool)
    requires Valid(s) && s.seg.dead == {} && Width(s) == 2 && s.seg.outs == [[], []] && Placed(s, n) && t < n <= 2
    requires FreshAt(s, u, t) && Key(t, u) in s.hist && |chunk| <= 1
    ensures var s' := Next(s, BackendRead(t, chunk, eof));
      && s' == s.(seg := s.seg.(backends := s'.seg.backends)) && Saying(s', u, n, t, chunk, eof)
      && forall i :: 0 <= i < n && i != t ==> s'.seg.backends[i] == s.seg.backends[i]
  {
  }

  lemma SegmentSends(s: Sys, u: Uuid, n: nat, t: nat, chunk: seq<byte>, eof: bool)
    requires Saying(s, u, n, t, chunk, eof) && |chunk| <= 1 && (eof || chunk != [])
    ensures var s' := Next(s, SegSouth(t));
      && s' == s.(seg := s.seg.(outs := [[], []][t := Encode(Said(u, chunk, eof))], conns := s'.seg.conns, backends := s'.seg.backends), hist := s'.hist)
      && s'.hist.Keys == s.hist.Keys && Placed(s', n)
      && forall i :: 0 <= i < n && i != t ==> s'.seg.conns[i] == s.seg.conns[i] && s'.seg.backends[i] == s.seg.backends[i]
  {
    hide Encode, G.SouthErr;
    FindsSouth(s.seg.conns, n, t);
    assert G.Speaks(s.seg, t) && !G.Blocked(s.seg, t);
    var g := G.SendFrame(s.seg, t);
    assert [] + Encode(Said(u, chunk, eof)) == Encode(Said(u, chunk, eof));
    assert G.SouthRoute(s.seg, t) == G.Advance(g, t);
  }

  lemma FindsSouth(conns: seq<Conn>, n: nat, t: nat)
    requires |conns| == n && t < n && forall i :: 0 <= i < n ==> conns[i].south == i
    ensures G.MatchSouth(conns, t, {}) == t
  {
    hide G.MatchSouth;
    assert conns[t].south == t && conns[t].north !in {};
  }

  /** The controller hears that the second backend has ended. */
  lemma EndHeard(s: Sys, u: Uuid, o: seq<seq<byte>>)
    requires Session(s.(ctrl := s.ctrl.(ins := [[], []])), u, HALF_OPEN, HALF_OPEN, o)
    requires s.ctrl.ins == [[], []][1 := Encode(End(u))]
    ensures var s' := Next(s, CtrlSouth(1));
      Session(s', u, HALF_OPEN, HALF_CLOSED, o) && s'.seg == s.seg
  {
    hide Encode, Decode, Complete;
    PullsWhole(End(u));
    assert C.MatchNode(s.ctrl.conns, 1, u) == 1;
    assert C.Judge(s.ctrl, 1, End(u)) == C.Accept;
    assert [[], []][1 := Encode(End(u))][1 := []] == [[], []];
  }

  // ---------------------------------------------------------------------------
  // The two runs

  /** A client that sends twice before the first backend answers. */
  function TwoChunks(u: Uuid): seq<Step> {
    Opening(u) + Delivery(0) + SecondChunk(u) + Reply(0, [9], false)
  }

  /** A backend that ends without a word before the other one answers. */
  function SilentEnd(u: Uuid): seq<Step> {
    Opening(u) + Delivery(0) + Delivery(1) + Reply(1, [], true) + [CtrlSouth(1)] + Reply(0, [9], false)
  }

  /** An answer has arrived on transport 0, for a session in states `a` and `b`. */
  predicate Answered(s: Sys, u: Uuid, a: State, b: State) {
    && s.ctrl.ins == [[], []][0 := Encode(Answer(u))]
    && |s.ctrl.outs| == 2 && Session(s.(ctrl := s.ctrl.(ins := [[], []])), u, a, b, s.ctrl.outs)
  }

  lemma Opened(u: Uuid)
    ensures var s, hello := Exec(Start(C.HALF_DUPLEX), Opening(u)), Encode(Hello(u));
      Session(s, u, HALF_OPEN, HALF_OPEN, [hello, hello]) && Served(s, u, 0)
  {
    hide Exec, Next, Session, Encode;
    var s := Start(C.HALF_DUPLEX);
    Waits();
    ExecAppend(s, [NewClient, NewTransport] + [NewTransport, ClientRead(0, [7], false)], [NorthRoute(0, [0, 1], u)]);
    ExecAppend(s, [NewClient, NewTransport], [NewTransport, ClientRead(0, [7], false)]);
    var m := Exec(Exec(s, [NewClient, NewTransport]), [NewTransport, ClientRead(0, [7], false)]);
    ExecOne(m, NorthRoute(0, [0, 1], u));
    SessionOpens(m, u);
  }

  lemma TwoChunksRun(u: Uuid)
    ensures Answered(Reach(C.HALF_DUPLEX, TwoChunks(u)), u, OPEN, OPEN)
  {
    hide Exec, Session, Encode, Opening, Delivery, SecondChunk, Reply;
    var s, hello := Start(C.HALF_DUPLEX), Encode(Hello(u));
    EncodeLength(Hello(u));
    Opened(u);
    var s1 := Exec(s, Opening(u));
    Delivered(s1, u, HALF_OPEN, HALF_OPEN, [hello, hello], 0);
    var s2 := Exec(s1, Delivery(0));
    var o := [hello, hello][0 := []];
    SentAgain(s2, u, o);
    var s3, again := Exec(s2, SecondChunk(u)), Encode(Again(u));
    assert FreshAt(s2, u, 0) && FreshAt(s3, u, 0);
    Replied(s3, u, OPEN, OPEN, [o[0] + again, o[1] + again], 1, 0, [9], false);
    ExecAppend(s, Opening(u), Delivery(0));
    ExecAppend(s, Opening(u) + Delivery(0), SecondChunk(u));
    ExecAppend(s, Opening(u) + Delivery(0) + SecondChunk(u), Reply(0, [9], false));
    AnsweredIs(Exec(s3, Reply(0, [9], false)), s3, u, OPEN, OPEN, [o[0] + again, o[1] + again]);
  }

  lemma SilentEndRun(u: Uuid)
    ensures Answered(Reach(C.HALF_DUPLEX, SilentEnd(u)), u, HALF_OPEN, HALF_CLOSED)
  {
    hide Exec, Next, Session, Encode, Opening, Delivery, Reply;
    var s, hello := Start(C.HALF_DUPLEX), Encode(Hello(u));
    Opened(u);
    var s1 := Exec(s, Opening(u));
    Delivered(s1, u, HALF_OPEN, HALF_OPEN, [hello, hello], 0);
    var s2 := Exec(s1, Delivery(0));
    var o := [hello, hello][0 := []];
    Delivered(s2, u, HALF_OPEN, HALF_OPEN, o, 1);
    var s3 := Exec(s2, Delivery(1));
    assert FreshAt(s3, u, 0) && FreshAt(s3, u, 1);
    Replied(s3, u, HALF_OPEN, HALF_OPEN, o[1 := []], 2, 1, [], true);
    var s4 := Exec(s3, Reply(1, [], true));
    QuietAgain(s4, s3, u, o[1 := []]);
    EndHeard(s4, u, o[1 := []]);
    ExecOne(s4, CtrlSouth(1));
    var s5 := Exec(s4, [CtrlSouth(1)]);
    assert FreshAt(s4, u, 0) && FreshAt(s5, u, 0);
    Replied(s5, u, HALF_OPEN, HALF_CLOSED, o[1 := []], 2, 0, [9], false);
    AnsweredIs(Exec(s5, Reply(0, [9], false)), s5, u, HALF_OPEN, HALF_CLOSED, o[1 := []]);
    SilentEndSteps(s, u);
  }

  lemma SilentEndSteps(s: Sys, u: Uuid)
    requires Valid(s)
    ensures Exec(s, SilentEnd(u)) ==
      Exec(Exec(Exec(Exec(Exec(Exec(s, Opening(u)), Delivery(0)), Delivery(1)), Reply(1, [], true)), [CtrlSouth(1)]), Reply(0, [9], false))
  {
    hide Exec, Opening, Delivery, Reply;
    var a := Opening(u) + Delivery(0);
    ExecAppend(s, Opening(u), Delivery(0));
    ExecAppend(s, a, Delivery(1));
    ExecAppend(s, a + Delivery(1), Reply(1, [], true));
    ExecAppend(s, a + Delivery(1) + Reply(1, [], true), [CtrlSouth(1)]);
    ExecAppend(s, a + Delivery(1) + Reply(1, [], true) + [CtrlSouth(1)], Reply(0, [9], false));
  }

  lemma QuietAgain(s': Sys, s: Sys, u: Uuid, o: seq<seq<byte>>)
    requires Session(s, u, HALF_OPEN, HALF_OPEN, o) && Session(s'.(ctrl := s.ctrl), u, HALF_OPEN, HALF_OPEN, o)
    requires s'.ctrl == s.ctrl.(ins := [[], []][1 := Encode(End(u))])
    ensures Session(s'.(ctrl := s'.ctrl.(ins := [[], []])), u, HALF_OPEN, HALF_OPEN, o)
  {
    hide Encode;
    assert s'.ctrl.(ins := [[], []]) == s.ctrl;
  }

  lemma AnsweredIs(s': Sys, s: Sys, u: Uuid, a: State, b: State, o: seq<seq<byte>>)
    requires Session(s, u, a, b, o) && Session(s'.(ctrl := s.ctrl), u, a, b, o)
    requires s'.ctrl == s.ctrl.(ins := [[], []][0 := Encode(Answer(u))])
    ensures Answered(s', u, a, b)
  {
    hide Encode;
    assert s'.ctrl.(ins := [[], []]) == s.ctrl;
  }
}
