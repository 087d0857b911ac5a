/** The segment's handlers keep the invariant. */
module SegmentSteps {
  import opened Frames
  import opened Connections
  import opened Reassembly
  import opened System
  import opened Invariant
  import opened Streams
  import F = Flow
  import G = Segment

  // ---------------------------------------------------------------------------
  // Tables

  lemma EntriesRegistered(s: Sys)
    requires SegOK(s)
    ensures Registered(s.hist, s.seg.conns, AtSegment) && Distinct(s.seg.conns, AtSegment)
  {
  }

  lemma TouchKept(s: Sys, s': Sys, sel: Sel, op: byte, flags: byte)
    requires SegOK(s) && s'.hist == s.hist
    requires s'.seg.conns == Touch(s.seg.conns, sel, op, flags, s.seg.now) && s'.seg.now == s.seg.now
    ensures SegOK(s')
  {
    hide Hit, StateUpdate, Lawful;
    TouchDistinct(s.seg.conns, AtSegment, sel, op, flags, s.seg.now);
    forall i | 0 <= i < |s.seg.conns|
      ensures Lawful(s'.seg.conns[i], s.seg.now) && KeyOf(AtSegment, s'.seg.conns[i]) == KeyOf(AtSegment, s.seg.conns[i])
    {
      StateUpdateIsLawful(s.seg.conns[i], op, flags, s.seg.now, s.seg.now);
    }
  }

  lemma DropKept(s: Sys, s': Sys, sel: Sel)
    requires SegOK(s) && s'.hist == s.hist
    requires s'.seg.conns == Drop(s.seg.conns, sel) && s'.seg.now == s.seg.now
    ensures SegOK(s')
  {
    hide Hit, Lawful;
    DropDistinct(s.seg.conns, AtSegment, sel);
    DropMembers(s.seg.conns, sel);
    forall i | 0 <= i < |s'.seg.conns| ensures exists j :: 0 <= j < |s.seg.conns| && s.seg.conns[j] == s'.seg.conns[i] {
      assert s'.seg.conns[i] in s.seg.conns;
    }
  }

  lemma EntryOf(s: Sys, k: Key)
    requires SegOK(s) && Find(s.seg.conns, AtSegment, k).Some?
    ensures k in s.hist && s.hist[k].backend == Some(Find(s.seg.conns, AtSegment, k).value.south)
    ensures Find(s.seg.conns, AtSegment, k).value.north == k.t
  {
    hide Find, Lawful;
    var i := FindIndex(s.seg.conns, AtSegment, k);
  }

  // ---------------------------------------------------------------------------
  // Closing, aborting, forgetting

  /** The segment aborted the selected connections and touched nothing outside its table. */
  predicate Aborted(s: Sys, s': Sys, sel: Sel)
    requires Valid(s)
  {
    && Valid(s') && s' == s.(seg := s'.seg)
    && s'.seg == s.seg.(conns := s'.seg.conns, outs := s'.seg.outs, dead := s'.seg.dead)
    && s'.seg.outs == Notify(s.seg.outs, s.seg.conns, AtSegment, sel, STOP, ABORT, [])
  }

  /** Connections may be forgotten, and may advance. */
  predicate Fewer(s: Sys, s': Sys, k: Key) {
    var c, c' := StateOf(Find(s.seg.conns, AtSegment, k)), StateOf(Find(s'.seg.conns, AtSegment, k));
    c'.None? || (c.Some? && c.value <= c'.value)
  }

  lemma AbortedStreams(s: Sys, s': Sys, sel: Sel, t: nat)
    requires Valid(s) && SegOK(s) && Aborted(s, s', sel) && t < Width(s) && StreamOK(s, t)
    ensures StreamOK(s', t) && DownQ(s', t) == DownQ(s, t)
    ensures UpQ(s', t) == UpQ(s, t) + Addressed(s.seg.conns, AtSegment, sel, STOP, ABORT, [], t)
  {
    hide FrameStream, Parse, EncodeAll, Addressed, StreamOK, SegOK;
    EntriesRegistered(s);
    NotifyUp(s, s', s.seg.conns, sel, STOP, ABORT, [], t);
  }

  lemma AbortedFlow(s: Sys, s': Sys, sel: Sel, k: Key)
    requires Inv(s) && Aborted(s, s', sel) && k in s.hist && Fewer(s, s', k)
    ensures InRange(s', k) && F.Keeps(FlowOf(s, k), FlowOf(s', k))
  {
    hide F.Sound, F.Later, NodesOK, FrameStream, Parse, EncodeAll, Addressed, Find, Proj, Got, StreamOK, SegOK, ClientsOK, BackendsOK, CtrlOK, Hit;
    assert InRange(s, k) && StreamOK(s, k.t);
    EntriesRegistered(s);
    AbortedStreams(s, s', sel, k.t);
    ShareOf(UpQ(s, k.t), s.seg.conns, AtSegment, sel, STOP, ABORT, [], k);
    var f, f' := FlowOf(s, k), FlowOf(s', k);
    if f'.up != f.up + [AbortFrame(k.u)] {
      assert f'.up == f.up;
    }
    assert f' == f.(sconn := f'.sconn, up := f'.up);
    F.SegmentQuitKeeps(f, f');
  }

  lemma AbortedKeeps(s: Sys, s': Sys, sel: Sel)
    requires Inv(s) && Aborted(s, s', sel) && SegOK(s')
    requires forall k :: k in s.hist ==> Fewer(s, s', k)
    ensures Inv(s') && Evolves(s, s')
  {
    hide F.Sound, F.Later, FlowOf, StreamOK, CtrlOK, SegOK, ClientOK, Find, NodesOK, Fewer;
    forall k | k in s.hist ensures InRange(s', k) {
      assert InRange(s, k);
    }
    assert CtrlOK(s') by { SameCtrl(s, s'); }
    forall t | 0 <= t < Width(s') ensures StreamOK(s', t) {
      AbortedStreams(s, s', sel, t);
    }
    forall k | k in s'.hist ensures F.Keeps(FlowOf(s, k), FlowOf(s', k)) {
      AbortedFlow(s, s', sel, k);
    }
  }

  lemma SameCtrl(s: Sys, s': Sys)
    requires CtrlOK(s) && s'.hist.Keys >= s.hist.Keys && s'.ctrl == s.ctrl
    requires forall k :: k in s.hist ==> s'.hist[k].client == s.hist[k].client
    ensures CtrlOK(s')
  {
    hide Lawful, Distinct, LiveOK;
  }

  lemma SouthErrKeeps(s: Sys, b: nat)
    requires Inv(s)
    ensures Inv(s.(seg := G.SouthErr(s.seg, b))) && Evolves(s, s.(seg := G.SouthErr(s.seg, b)))
  {
    hide F.Sound, F.Later, FlowOf, StreamOK, CtrlOK, SegOK, ClientsOK, Find, HistOK, BackendsOK, Hit;
    var s' := s.(seg := G.SouthErr(s.seg, b));
    EntriesRegistered(s);
    DropKept(s, s', OfSouth(b));
    forall k ensures Fewer(s, s', k) {
      DropFind(s.seg.conns, AtSegment, OfSouth(b), k);
    }
    AbortedKeeps(s, s', ServingSouth(b, s.seg.dead));
  }

  lemma SouthErrStepKeeps(s: Sys, b: nat)
    requires Inv(s)
    ensures Inv(Next(s, SegSouthErr(b))) && Evolves(s, Next(s, SegSouthErr(b)))
  {
    hide Tables, Evolves, StreamsOK, FlowsOK, G.SouthErr;
    SouthErrKeeps(s, b);
  }

  lemma ConnectFailKeeps(s: Sys, b: nat)
    requires Inv(s)
    ensures Inv(Next(s, SegConnectFail(b))) && Evolves(s, Next(s, SegConnectFail(b)))
  {
    hide F.Sound, F.Later, FlowOf, StreamOK, CtrlOK, SegOK, ClientsOK, Find, HistOK, BackendsOK, Hit;
    var s' := Next(s, SegConnectFail(b));
    EntriesRegistered(s);
    DropKept(s, s', OfSouth(b));
    forall k ensures Fewer(s, s', k) {
      DropFind(s.seg.conns, AtSegment, OfSouth(b), k);
    }
    AbortedKeeps(s, s', OfSouth(b));
  }

  lemma StateKeeps(s: Sys, b: nat)
    requires Inv(s)
    ensures Inv(Next(s, SegState(b))) && Evolves(s, Next(s, SegState(b)))
  {
    hide Tables, Evolves, StreamsOK, FlowsOK, G.SouthErr;
    EvolvesSelf(s);
    SouthErrKeeps(s, b);
  }

  lemma NorthErrKeeps(s: Sys, t: nat)
    requires Inv(s)
    ensures Inv(Next(s, SegNorthErr(t))) && Evolves(s, Next(s, SegNorthErr(t)))
  {
    hide F.Sound, F.Later, FlowOf, StreamOK, CtrlOK, SegOK, ClientsOK, Find, HistOK, BackendsOK, Hit, Notify;
    var s' := Next(s, SegNorthErr(t));
    EntriesRegistered(s);
    TouchKept(s, s', OfNorth(t), STOP, ABORT);
    forall k ensures Fewer(s, s', k) {
      TouchState(s.seg.conns, AtSegment, OfNorth(t), STOP, ABORT, s.seg.now, k);
    }
    NobodyBeyond(s.seg.conns, |s.seg.backends|);
    NotifyNobody(s.seg.outs, s.seg.conns, AtSegment, OfSouth(|s.seg.backends|), STOP, ABORT, []);
    AbortedKeeps(s, s', OfSouth(|s.seg.backends|));
  }

  // ---------------------------------------------------------------------------
  // Frames from the controller

  predicate Arrived(s: Sys, t: nat)
    requires Valid(s)
  {
    t < Width(s) && t !in s.seg.dead && Complete(s.seg.ins[t])
  }

  function Order(s: Sys, t: nat): Frame
    requires Valid(s) && Arrived(s, t)
  {
    Decode(s.seg.ins[t])
  }

  function Taken(s: Sys, t: nat): (s': Sys)
    requires Valid(s) && Arrived(s, t)
    ensures Valid(s')
  {
    s.(seg := s.seg.(ins := s.seg.ins[t := []]))
  }

  lemma TakenStreams(s: Sys, t: nat, r: nat)
    requires Valid(s) && Arrived(s, t) && r < Width(s) && StreamOK(s, r) && StreamOK(s, t)
    ensures StreamOK(Taken(s, t), r) && UpQ(Taken(s, t), r) == UpQ(s, r)
    ensures DownQ(s, r) == if r == t then [Order(s, t)] + DownQ(Taken(s, t), t) else DownQ(Taken(s, t), r)
    ensures Key(t, Order(s, t).eid) in s.hist && Sendable(Order(s, t))
  {
    hide FrameStream, Parse;
    PopDown(s, Taken(s, t), t);
    assert Order(s, t) in DownQ(s, t);
  }

  lemma OrderIsKnown(s: Sys, t: nat)
    requires Valid(s) && Tables(s) && StreamsOK(s) && Arrived(s, t)
    ensures Key(t, Order(s, t).eid) in s.hist && InRange(s, Key(t, Order(s, t).eid))
  {
    hide StreamOK;
    assert StreamOK(s, t);
    TakenStreams(s, t, t);
  }

  lemma MatchIsFind(conns: seq<Conn>, k: Key)
    requires Distinct(conns, AtSegment)
    ensures var i := G.MatchKey(conns, k);
      if i < |conns| then Find(conns, AtSegment, k) == Some(conns[i]) else Find(conns, AtSegment, k).None?
  {
    hide Find, G.MatchKey;
    var i := G.MatchKey(conns, k);
    if i < |conns| {
      FindAt(conns, AtSegment, i);
    } else if Find(conns, AtSegment, k).Some? {
      var j := FindIndex(conns, AtSegment, k);
      assert false;
    }
  }

  lemma TakenFlow(s: Sys, t: nat, k: Key)
    requires Inv(s) && Arrived(s, t) && k in s.hist
    ensures InRange(Taken(s, t), k)
    ensures var f, f' := FlowOf(s, k), FlowOf(Taken(s, t), k);
      if k == Key(t, Order(s, t).eid) then f.down == [Order(s, t)] + f'.down && f' == f.(down := f.down[1..]) else f' == f
  {
    hide F.Sound, F.Later, FlowsOK, NodesOK, FrameStream, Parse, Find, Proj, Got, StreamOK, SegOK, ClientsOK, BackendsOK, CtrlOK;
    assert InRange(s, k) && StreamOK(s, k.t) && StreamOK(s, t);
    TakenStreams(s, t, k.t);
    ProjPop(Order(s, t), DownQ(Taken(s, t), t), k.u);
  }

  lemma TakenTables(s: Sys, t: nat)
    requires Valid(s) && Tables(s) && Arrived(s, t)
    ensures Tables(Taken(s, t))
  {
    hide Lawful, ClientOK, Distinct, NodesOK;
    forall k | k in s.hist ensures InRange(Taken(s, t), k) {
      assert InRange(s, k);
    }
  }

  /** The verdict on an arrived frame, in terms of its connection. */
  lemma VerdictMeans(s: Sys, t: nat)
    requires Inv(s) && Arrived(s, t)
    ensures var k := Key(t, Order(s, t).eid);
      && k in s.hist && InRange(s, k)
      && (G.Judge(s.seg, t, Order(s, t)).Accept? ==>
            var i := G.MatchKey(s.seg.conns, k);
            && F.Feeding(FlowOf(s, k)) && Find(s.seg.conns, AtSegment, k) == Some(s.seg.conns[i])
            && s.hist[k].backend == Some(s.seg.conns[i].south))
      && (G.Judge(s.seg, t, Order(s, t)).Reject? || G.Judge(s.seg, t, Order(s, t)).Open? ==> !F.Feeding(FlowOf(s, k)))
  {
    hide F.Sound, F.Later, FlowsOK, Find, G.MatchKey, Proj, Parse, Got, StreamOK, Lawful;
    var k := Key(t, Order(s, t).eid);
    OrderIsKnown(s, t);
    EntriesRegistered(s);
    MatchIsFind(s.seg.conns, k);
    if Find(s.seg.conns, AtSegment, k).Some? {
      EntryOf(s, k);
    }
  }

  /** A frame for no open connection is dropped ... */
  lemma UnwantedKeeps(s: Sys, t: nat)
    requires Inv(s) && Arrived(s, t) && G.Judge(s.seg, t, Order(s, t)).Reject?
    ensures Inv(Taken(s, t)) && Evolves(s, Taken(s, t))
  {
    hide F.Sound, F.Later, FlowOf, StreamOK, FrameStream, Parse, G.Judge;
    VerdictMeans(s, t);
    TakenTables(s, t);
    forall r | 0 <= r < Width(s) ensures StreamOK(Taken(s, t), r) {
      TakenStreams(s, t, r);
    }
    forall k | k in s.hist ensures F.Keeps(FlowOf(s, k), FlowOf(Taken(s, t), k)) {
      TakenFlow(s, t, k);
      F.KeepsSelf(FlowOf(s, k));
      if k == Key(t, Order(s, t).eid) {
        F.StrayDownKeeps(FlowOf(s, k));
      }
    }
  }

  predicate Answered(s: Sys, s': Sys, t: nat, u: Uuid)
    requires Valid(s)
  {
    && t < Width(s) && Key(t, u) in s.hist
    && s' == s.(seg := s.seg.(outs := s.seg.outs[t := s.seg.outs[t] + Encode(AbortFrame(u))]))
  }

  lemma AnswerStream(s: Sys, s': Sys, t: nat, u: Uuid, r: nat)
    requires Valid(s) && Answered(s, s', t, u) && r < Width(s) && StreamOK(s, r)
    ensures Valid(s') && StreamOK(s', r) && DownQ(s', r) == DownQ(s, r)
    ensures UpQ(s', r) == if r == t then UpQ(s, t) + [AbortFrame(u)] else UpQ(s, r)
  {
    hide FrameStream, Parse, Encode;
    assert EncodeAll([AbortFrame(u)]) == Encode(AbortFrame(u));
    if r == t {
      PushUp(s, s', t, [AbortFrame(u)]);
    }
  }

  lemma AnswerFlow(s: Sys, s': Sys, t: nat, u: Uuid, k: Key)
    requires Inv(s) && Answered(s, s', t, u) && k in s.hist
    ensures Valid(s') && InRange(s', k) && F.Keeps(FlowOf(s, k), FlowOf(s', k))
  {
    hide F.Sound, F.Later, NodesOK, FrameStream, Parse, Encode, Find, Proj, Got, StreamOK, SegOK, ClientsOK, BackendsOK, CtrlOK;
    assert InRange(s, k) && StreamOK(s, k.t);
    AnswerStream(s, s', t, u, k.t);
    ProjPush(UpQ(s, t), AbortFrame(u), k.u);
    var f, f' := FlowOf(s, k), FlowOf(s', k);
    assert f' == f.(up := f'.up);
    F.SegmentQuitKeeps(f, f');
  }

  /** ... and answered with an ABORT. */
  lemma AnswerKeeps(s: Sys, s': Sys, t: nat, u: Uuid)
    requires Inv(s) && Answered(s, s', t, u)
    ensures Inv(s') && Evolves(s, s')
  {
    hide F.Sound, F.Later, FlowOf, StreamOK, FrameStream, Parse, Encode, Lawful, Distinct, NodesOK, ClientOK;
    forall k | k in s.hist ensures InRange(s', k) {
      assert InRange(s, k);
    }
    forall r | 0 <= r < Width(s) ensures StreamOK(s', r) {
      AnswerStream(s, s', t, u, r);
    }
    forall k | k in s.hist ensures F.Keeps(FlowOf(s, k), FlowOf(s', k)) {
      AnswerFlow(s, s', t, u, k);
    }
  }

  // ---------------------------------------------------------------------------
  // Accepted frames

  function Passed(s: Sys, t: nat): (s': Sys)
    requires Valid(s) && Arrived(s, t) && G.Judge(s.seg, t, Order(s, t)).Accept?
    ensures Valid(s')
  {
    var g := G.AcceptFrame(s.seg, t, Order(s, t));
    s.(seg := g.(ins := g.ins[t := []]))
  }

  lemma PassedTables(s: Sys, t: nat)
    requires Inv(s) && Arrived(s, t) && G.Judge(s.seg, t, Order(s, t)).Accept?
    ensures Tables(Passed(s, t))
  {
    hide F.Sound, F.Later, FlowsOK, StreamsOK, Find, G.MatchKey, NodesOK, Lawful, StateUpdate, FlowOf, G.Judge, CtrlOK, ClientOK;
    var s', f := Passed(s, t), Order(s, t);
    var k := Key(t, f.eid);
    var i := G.MatchKey(s.seg.conns, k);
    VerdictMeans(s, t);
    StateUpdateIsLawful(s.seg.conns[i], f.op, f.flags, s.seg.now, s.seg.now);
    ReplaceFind(s.seg.conns, AtSegment, i, s'.seg.conns[i], k);
    forall l | l in s.hist ensures InRange(s', l) {
      assert InRange(s, l);
    }
    assert CtrlOK(s') by { SameCtrl(s, s'); }
  }

  lemma PassedQueues(s: Sys, t: nat, r: nat)
    requires Valid(s) && Arrived(s, t) && G.Judge(s.seg, t, Order(s, t)).Accept? && r < Width(s)
    ensures DownQ(Passed(s, t), r) == DownQ(Taken(s, t), r) && UpQ(Passed(s, t), r) == UpQ(Taken(s, t), r)
    ensures StreamOK(Taken(s, t), r) ==> StreamOK(Passed(s, t), r)
  {
    hide Parse, G.Judge, G.MatchKey, StateUpdate, FrameStream;
  }

  lemma PassedFlow(s: Sys, t: nat, k: Key)
    requires Inv(s) && Arrived(s, t) && G.Judge(s.seg, t, Order(s, t)).Accept? && k in s.hist
    ensures InRange(Passed(s, t), k)
    ensures var f, f' := FlowOf(s, k), FlowOf(Passed(s, t), k);
      var x := Order(s, t);
      if k == Key(t, x.eid) then
        && F.Feeding(f) && f.down == [x] + f'.down
        && f' == f.(down := f.down[1..], delivered := f.delivered + x.payload, sconn := Some(NextState(f.sconn.value, x.op, x.flags)))
      else f' == f
  {
    hide F.Sound, F.Later, FlowsOK, StreamsOK, Find, G.MatchKey, NodesOK, StateUpdate, G.Judge, Proj, Parse, Got, NextState, Lawful, CtrlOK, ClientsOK;
    var s', x := Passed(s, t), Order(s, t);
    var k0 := Key(t, x.eid);
    var i := G.MatchKey(s.seg.conns, k0);
    VerdictMeans(s, t);
    TakenFlow(s, t, k);
    PassedQueues(s, t, k.t);
    assert InRange(s, k) && InRange(s, k0);
    StateUpdateIsLawful(s.seg.conns[i], x.op, x.flags, s.seg.now, s.seg.now);
    ReplaceFind(s.seg.conns, AtSegment, i, s'.seg.conns[i], k);
  }

  lemma PassedKeeps(s: Sys, t: nat)
    requires Inv(s) && Arrived(s, t) && G.Judge(s.seg, t, Order(s, t)).Accept?
    ensures Inv(Passed(s, t)) && Evolves(s, Passed(s, t))
  {
    hide F.Sound, F.Later, FlowOf, StreamOK, G.Judge, G.MatchKey, StateUpdate, NextState, CtrlOK, SegOK, BackendsOK, ClientsOK;
    var s' := Passed(s, t);
    PassedTables(s, t);
    forall r | 0 <= r < Width(s) ensures StreamOK(s', r) {
      TakenStreams(s, t, r);
      PassedQueues(s, t, r);
    }
    forall k | k in s.hist ensures F.Keeps(FlowOf(s, k), FlowOf(s', k)) {
      PassedFlow(s, t, k);
      F.KeepsSelf(FlowOf(s, k));
      if k == Key(t, Order(s, t).eid) {
        F.AcceptDownKeeps(FlowOf(s, k));
      }
    }
  }

  // ---------------------------------------------------------------------------
  // The frame that opens a session

  function Opened(s: Sys, t: nat): (s': Sys)
    requires Valid(s) && Arrived(s, t) && Key(t, Order(s, t).eid) in s.hist
    ensures Valid(s')
  {
    var g := G.Connect(s.seg, t, Order(s, t));
    var k := Key(t, Order(s, t).eid);
    s.(seg := g.(ins := g.ins[t := []]), hist := s.hist[k := s.hist[k].(backend := Some(|s.seg.backends|))])
  }

  /** The session is opened for the first time: its connection has neither entry nor backend yet. */
  lemma OpensOnce(s: Sys, t: nat)
    requires Inv(s) && Arrived(s, t) && G.Judge(s.seg, t, Order(s, t)).Open?
    ensures var k := Key(t, Order(s, t).eid);
      && k in s.hist && InRange(s, k) && s.hist[k].backend.None? && Find(s.seg.conns, AtSegment, k).None?
      && IsInit(Order(s, t)) && !F.Feeding(FlowOf(s, k))
  {
    hide F.Sound, F.Later, Find, G.MatchKey, Proj, Parse, Got, StreamOK, Lawful, F.Feeding;
    var k := Key(t, Order(s, t).eid);
    VerdictMeans(s, t);
    TakenFlow(s, t, k);
    F.OpenKeeps(FlowOf(s, k), HALF_OPEN);
    if Find(s.seg.conns, AtSegment, k).Some? {
      EntryOf(s, k);
      assert false;
    }
  }

  lemma OpenedEntries(s: Sys, t: nat)
    requires Inv(s) && Arrived(s, t) && G.Judge(s.seg, t, Order(s, t)).Open?
    ensures var k := Key(t, Order(s, t).eid);
      && k in s.hist && SegOK(Opened(s, t)) && BackendsOK(Opened(s, t))
  {
    hide F.Sound, F.Later, FlowsOK, FlowOf, StreamsOK, Find, NodesOK, G.Judge, ClientOK, CtrlOK, MakeTimes;
    OpensOnce(s, t);
    var s', k := Opened(s, t), Key(t, Order(s, t).eid);
    MadeIsLawful(Order(s, t), t, |s.seg.backends|, s.seg.now);
    forall i | 0 <= i < |s.seg.conns| ensures KeyOf(AtSegment, s.seg.conns[i]) != k {
    }
    forall b | 0 <= b < |s.seg.backends| ensures s.seg.backends[b].key != k {
    }
  }

  lemma MadeIsLawful(f: Frame, t: nat, b: nat, now: int)
    ensures Lawful(Make(f.eid, t, b, if f.op == STOP then HALF_CLOSED else HALF_OPEN, now), now)
  {
  }

  lemma OpenedHist(s: Sys, t: nat)
    requires Inv(s) && Arrived(s, t) && G.Judge(s.seg, t, Order(s, t)).Open?
    ensures Key(t, Order(s, t).eid) in s.hist && HistOK(Opened(s, t))
  {
    hide F.Sound, F.Later, FlowsOK, FlowOf, StreamsOK, Find, G.Judge, SegOK, BackendsOK, CtrlOK, ClientsOK, Node, MakeTimes;
    OpensOnce(s, t);
    var s' := Opened(s, t);
    forall k | k in s'.hist ensures InRange(s', k) {
      assert InRange(s, k);
    }
  }

  lemma OpenedClients(s: Sys, s': Sys)
    requires ClientsOK(s) && s'.ctrl == s.ctrl
    requires forall k :: k in s.hist ==> k in s'.hist && s'.hist[k].client == s.hist[k].client
    ensures ClientsOK(s')
  {
    forall n | 0 <= n < |s.ctrl.clients| ensures ClientOK(s'.hist, n, s'.ctrl.clients[n]) {
      assert ClientOK(s.hist, n, s.ctrl.clients[n]);
      forall p | p in s.ctrl.clients[n].log ensures PieceOK(s'.hist, n, p) {
        assert PieceOK(s.hist, n, p);
      }
    }
  }

  lemma OpenedTables(s: Sys, t: nat)
    requires Inv(s) && Arrived(s, t) && G.Judge(s.seg, t, Order(s, t)).Open?
    ensures Key(t, Order(s, t).eid) in s.hist && Tables(Opened(s, t))
  {
    hide F.Sound, F.Later, FlowsOK, FlowOf, StreamsOK, Find, G.Judge, SegOK, BackendsOK, CtrlOK, ClientsOK, InRange, NodesOK, MakeTimes;
    OpenedHist(s, t);
    OpenedEntries(s, t);
    SameCtrl(s, Opened(s, t));
    OpenedClients(s, Opened(s, t));
  }

  lemma OpenedEntry(s: Sys, t: nat, k: Key)
    requires Inv(s) && Arrived(s, t) && Key(t, Order(s, t).eid) in s.hist && k in s.hist
    ensures var x := Order(s, t);
      StateOf(Find(Opened(s, t).seg.conns, AtSegment, k)) ==
        if Find(s.seg.conns, AtSegment, k).Some? then StateOf(Find(s.seg.conns, AtSegment, k))
        else if k == Key(t, x.eid) then Some(if x.op == STOP then HALF_CLOSED else HALF_OPEN)
        else None
  {
    hide Tables, StreamsOK, FlowsOK, Decode, MakeTimes;
    var x := Order(s, t);
    var made := Make(x.eid, t, |s.seg.backends|, if x.op == STOP then HALF_CLOSED else HALF_OPEN, s.seg.now);
    FindAppend(s.seg.conns, [made], AtSegment, k);
    assert [made][1..] == [];
  }

  lemma OpenedFlow(s: Sys, t: nat, k: Key)
    requires Inv(s) && Arrived(s, t) && G.Judge(s.seg, t, Order(s, t)).Open? && k in s.hist
    ensures Key(t, Order(s, t).eid) in s.hist && InRange(Opened(s, t), k)
    ensures var f, f' := FlowOf(s, k), FlowOf(Opened(s, t), k);
      var x := Order(s, t);
      if k == Key(t, x.eid) then
        && f.down == [x] + f'.down
        && f' == f.(down := f.down[1..], sconn := Some(if x.op == STOP then HALF_CLOSED else HALF_OPEN), made := true, delivered := x.payload)
      else f' == f
  {
    hide F.Sound, F.Later, FlowsOK, NodesOK, G.Judge, Find, Proj, Parse, Got, CtrlOK, ClientsOK, StreamOK, Make, Decode;
    OpensOnce(s, t);
    TakenFlow(s, t, k);
    assert InRange(s, k) && InRange(s, Key(t, Order(s, t).eid));
    OpenedQueues(s, t, k.t);
    OpenedEntry(s, t, k);
  }

  lemma OpenedQueues(s: Sys, t: nat, r: nat)
    requires Valid(s) && Arrived(s, t) && Key(t, Order(s, t).eid) in s.hist && r < Width(s)
    ensures DownQ(Opened(s, t), r) == DownQ(Taken(s, t), r) && UpQ(Opened(s, t), r) == UpQ(Taken(s, t), r)
    ensures StreamOK(Taken(s, t), r) ==> StreamOK(Opened(s, t), r)
  {
    hide Parse, FrameStream, MakeTimes;
  }

  lemma OpenedKeeps(s: Sys, t: nat)
    requires Inv(s) && Arrived(s, t) && G.Judge(s.seg, t, Order(s, t)).Open?
    ensures Key(t, Order(s, t).eid) in s.hist && Inv(Opened(s, t)) && Evolves(s, Opened(s, t))
  {
    hide F.Sound, F.Later, FlowOf, StreamOK, G.Judge, Find, CtrlOK, SegOK, BackendsOK, ClientsOK, MakeTimes;
    OpensOnce(s, t);
    OpenedTables(s, t);
    var s' := Opened(s, t);
    forall r | 0 <= r < Width(s) ensures StreamOK(s', r) {
      TakenStreams(s, t, r);
      OpenedQueues(s, t, r);
    }
    forall k | k in s.hist ensures F.Keeps(FlowOf(s, k), FlowOf(s', k)) {
      OpenedFlow(s, t, k);
      F.KeepsSelf(FlowOf(s, k));
      if k == Key(t, Order(s, t).eid) {
        F.OpenKeeps(FlowOf(s, k), if Order(s, t).op == STOP then HALF_CLOSED else HALF_OPEN);
      }
    }
  }

  lemma SegNorthKeeps(s: Sys, t: nat)
    requires Inv(s)
    ensures Inv(Next(s, SegNorth(t))) && Evolves(s, Next(s, SegNorth(t)))
  {
    hide Tables, Evolves, StreamsOK, FlowsOK, G.Connect, G.MatchKey, G.AcceptFrame, Encode;
    EvolvesSelf(s);
    if Arrived(s, t) {
      match G.Judge(s.seg, t, Order(s, t)) {
        case Block =>
        case Accept => PassedKeeps(s, t);
        case Open => OpenedKeeps(s, t);
        case Reject =>
          UnwantedKeeps(s, t);
          OrderIsKnown(s, t);
          if !IsAbort(Order(s, t)) {
            AnswerKeeps(Taken(s, t), Next(s, SegNorth(t)), t, Order(s, t).eid);
            EvolvesTransitive(s, Taken(s, t), Next(s, SegNorth(t)));
          }
      }
    }
  }

  // ---------------------------------------------------------------------------
  // Chunks from a backend

  /** The connection of backend `b`, when it has one on a live transport. */
  lemma EntryOfBackend(s: Sys, b: nat)
    requires Valid(s) && SegOK(s) && BackendsOK(s) && HistOK(s)
    requires b < |s.seg.backends| && G.MatchSouth(s.seg.conns, b, s.seg.dead) < |s.seg.conns|
    ensures var x, k := s.seg.conns[G.MatchSouth(s.seg.conns, b, s.seg.dead)], s.seg.backends[b].key;
      && KeyOf(AtSegment, x) == k && k in s.hist && s.hist[k].backend == Some(b)
      && Find(s.seg.conns, AtSegment, k) == Some(x) && k.t < Width(s)
  {
    hide Find, G.MatchSouth, Lawful, NodesOK;
    var i := G.MatchSouth(s.seg.conns, b, s.seg.dead);
    FindAt(s.seg.conns, AtSegment, i);
    assert InRange(s, KeyOf(AtSegment, s.seg.conns[i]));
  }

  function Sent(s: Sys, b: nat): (s': Sys)
    requires Valid(s) && G.Speaks(s.seg, b) && s.seg.backends[b].key in s.hist
    ensures Valid(s')
  {
    var k := s.seg.backends[b].key;
    s.(seg := G.SendFrame(s.seg, b), hist := s.hist[k := s.hist[k].(framed := s.hist[k].framed + s.seg.backends[b].pend)])
  }

  /** The frame that carries a backend's chunk or its end of file. */
  function Report(s: Sys, b: nat): Frame
    requires b < |s.seg.backends|
  {
    Frame(s.seg.backends[b].key.u, if s.seg.backends[b].eof then STOP else DATA, 0, s.seg.backends[b].pend)
  }

  lemma SentTables(s: Sys, b: nat)
    requires Inv(s) && G.Speaks(s.seg, b)
    ensures s.seg.backends[b].key in s.hist && Tables(Sent(s, b))
  {
    hide F.Sound, F.Later, FlowsOK, FlowOf, StreamsOK, G.MatchSouth, Lawful, Distinct, Encode, CtrlOK, ClientOK, Node;
    var s' := Sent(s, b);
    forall k | k in s'.hist ensures InRange(s', k) {
      assert InRange(s, k);
    }
    assert CtrlOK(s') by { SameCtrl(s, s'); }
    OpenedClients(s, s');
  }

  lemma SentStream(s: Sys, b: nat, t: nat)
    requires Inv(s) && G.Speaks(s.seg, b) && t < Width(s)
    ensures s.seg.backends[b].key in s.hist && StreamOK(Sent(s, b), t) && DownQ(Sent(s, b), t) == DownQ(s, t)
    ensures UpQ(Sent(s, b), t) == if t == s.seg.backends[b].key.t then UpQ(s, t) + [Report(s, b)] else UpQ(s, t)
  {
    hide F.Sound, F.Later, FlowsOK, FlowOf, G.MatchSouth, FrameStream, Parse, Encode, Lawful, Find, NodesOK, CtrlOK, ClientOK;
    assert StreamOK(s, t);
    EntryOfBackend(s, b);
    var s', x := Sent(s, b), Report(s, b);
    assert EncodeAll([x]) == Encode(x);
    if t == s.seg.backends[b].key.t {
      PushUp(s, s', t, [x]);
    }
  }

  /** What framing a backend's chunk does to each connection. */
  lemma SentIs(s: Sys, b: nat, k: Key)
    requires Inv(s) && G.Speaks(s.seg, b) && k in s.hist
    ensures s.seg.backends[b].key in s.hist && InRange(s, k) && InRange(Sent(s, b), k)
    ensures var f := FlowOf(s, k);
      if k == s.seg.backends[b].key then
        && f.sconn.Some? && f.bEof == s.seg.backends[b].eof && f.bPend == s.seg.backends[b].pend
        && FlowOf(Sent(s, b), k) == f.(up := f.up + [Report(s, b)], framed := f.framed + f.bPend, bPend := [])
      else FlowOf(Sent(s, b), k) == f
  {
    hide F.Sound, FlowsOK, G.MatchSouth, FrameStream, Parse, Encode, Lawful, Find, Proj, Got, NodesOK, CtrlOK, ClientOK, StreamOK;
    assert InRange(s, k);
    EntryOfBackend(s, b);
    SentStream(s, b, k.t);
    ProjPush(UpQ(s, k.t), Report(s, b), k.u);
  }

  lemma SentFlow(s: Sys, b: nat, k: Key)
    requires Inv(s) && G.Speaks(s.seg, b) && k in s.hist
    ensures s.seg.backends[b].key in s.hist && InRange(Sent(s, b), k) && F.Keeps(FlowOf(s, k), FlowOf(Sent(s, b), k))
  {
    hide F.Sound, F.Later, FlowOf, Sent, Tables, StreamsOK, G.MatchSouth, G.Blocked;
    SentIs(s, b, k);
    var f := FlowOf(s, k);
    if k == s.seg.backends[b].key {
      F.SegSendKeeps(f, Report(s, b));
    } else {
      F.KeepsSelf(f);
    }
  }

  lemma SentKeeps(s: Sys, b: nat)
    requires Inv(s) && G.Speaks(s.seg, b)
    ensures s.seg.backends[b].key in s.hist && Inv(Sent(s, b)) && Evolves(s, Sent(s, b))
  {
    hide F.Sound, F.Later, FlowOf, StreamOK, G.MatchSouth, CtrlOK, SegOK, ClientsOK;
    SentTables(s, b);
    forall t | 0 <= t < Width(s) ensures StreamOK(Sent(s, b), t) {
      SentStream(s, b, t);
    }
    forall k | k in s.hist ensures F.Keeps(FlowOf(s, k), FlowOf(Sent(s, b), k)) {
      SentFlow(s, b, k);
    }
  }

  /** One entry of the segment's table moves on. */
  lemma ReplaceKeeps(s: Sys, i: nat, c: Conn)
    requires Inv(s) && i < |s.seg.conns|
    requires exists op :: c == StateUpdate(s.seg.conns[i], op, 0, s.seg.now)
    ensures Inv(s.(seg := s.seg.(conns := s.seg.conns[i := c]))) && Evolves(s, s.(seg := s.seg.(conns := s.seg.conns[i := c])))
  {
    hide F.Sound, F.Later, FlowOf, StreamOK, CtrlOK, ClientsOK, Find, HistOK, BackendsOK, Hit, Notify, Lawful, StateUpdate;
    var s' := s.(seg := s.seg.(conns := s.seg.conns[i := c]));
    var op :| c == StateUpdate(s.seg.conns[i], op, 0, s.seg.now);
    StateUpdateIsLawful(s.seg.conns[i], op, 0, s.seg.now, s.seg.now);
    ReplaceFind(s.seg.conns, AtSegment, i, c, KeyOf(AtSegment, c));
    assert SegOK(s');
    forall k ensures Fewer(s, s', k) {
      ReplaceFind(s.seg.conns, AtSegment, i, c, k);
      FindAt(s.seg.conns, AtSegment, i);
    }
    NobodyBeyond(s.seg.conns, |s.seg.backends|);
    NotifyNobody(s.seg.outs, s.seg.conns, AtSegment, OfSouth(|s.seg.backends|), STOP, ABORT, []);
    AbortedKeeps(s, s', OfSouth(|s.seg.backends|));
  }

  lemma AdvanceKeeps(s: Sys, b: nat)
    requires Inv(s) && b < |s.seg.backends|
    ensures Inv(s.(seg := G.Advance(s.seg, b))) && Evolves(s, s.(seg := G.Advance(s.seg, b)))
  {
    hide Tables, Evolves, StreamsOK, FlowsOK, G.MatchSouth, StateUpdate, G.SouthErr;
    EvolvesSelf(s);
    var i := G.MatchSouth(s.seg.conns, b, s.seg.dead);
    if i < |s.seg.conns| {
      var op := if s.seg.backends[b].eof then STOP else DATA;
      var c := StateUpdate(s.seg.conns[i], op, 0, s.seg.now);
      ReplaceKeeps(s, i, c);
      var m := s.(seg := s.seg.(conns := s.seg.conns[i := c]));
      SouthErrKeeps(m, b);
      EvolvesTransitive(s, m, m.(seg := G.SouthErr(m.seg, b)));
    }
  }

  lemma SegSouthKeeps(s: Sys, b: nat)
    requires Inv(s)
    ensures Inv(Next(s, SegSouth(b))) && Evolves(s, Next(s, SegSouth(b)))
  {
    hide Tables, Evolves, StreamsOK, FlowsOK, G.MatchSouth, G.SouthErr, G.SendFrame, G.Advance;
    EvolvesSelf(s);
    if b < |s.seg.backends| {
      SouthErrKeeps(s, b);
      AdvanceKeeps(s, b);
      if G.Speaks(s.seg, b) {
        SentKeeps(s, b);
        assert |Sent(s, b).seg.backends| == |s.seg.backends| by { SameCount(s, b); }
        AdvanceKeeps(Sent(s, b), b);
        EvolvesTransitive(s, Sent(s, b), Next(s, SegSouth(b)));
      }
    }
  }

  lemma SameCount(s: Sys, b: nat)
    requires Valid(s) && G.Speaks(s.seg, b)
    ensures |G.SendFrame(s.seg, b).backends| == |s.seg.backends|
  {
    hide Encode, G.MatchSouth;
  }
}
