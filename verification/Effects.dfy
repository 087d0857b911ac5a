/** What each failure, and each frame that is not passed on, does to every connection: exactly this, and nothing else. */
module Effects {
  import opened Frames
  import opened Connections
  import opened System
  import opened Invariant
  import opened Streams
  import Steps = ControllerSteps
  import Replies = ControllerReplies
  import Segments = SegmentSteps
  import F = Flow
  import C = Controller
  import G = Segment

  /** The step from `s` to `s'` makes connection `k` what `f'` says. */
  predicate Becomes(s: Sys, s': Sys, k: Key, f': F.Flow) {
    Valid(s) && Valid(s') && k in s.hist && k in s'.hist && InRange(s, k) && InRange(s', k) && FlowOf(s', k) == f'
  }

  // ---------------------------------------------------------------------------
  // Failures at the controller

  function AfterClientLost(s: Sys, n: nat, k: Key): F.Flow
    requires Valid(s) && k in s.hist && InRange(s, k)
  {
    var f := FlowOf(s, k);
    if s.hist[k].client != n then f
    else f.(conn := None, nAlive := false, down := if F.Serving(f) then f.down + [AbortFrame(k.u)] else f.down)
  }

  lemma ClientLostFlow(s: Sys, s': Sys, n: nat, k: Key)
    requires Inv(s) && n < |s.ctrl.clients| && s.ctrl.clients[n].alive && k in s.hist
    requires s' == s.(ctrl := C.NorthErr(s.ctrl, n)) && HistOK(s')
    ensures InRange(s, k) && Becomes(s, s', k, AfterClientLost(s, n, k))
  {
    hide F.Sound, FlowsOK, NodesOK, Find, Proj, Parse, Got, StreamOK, SegOK, ClientsOK, BackendsOK, Addressed, Lawful, Notify, Drop;
    var sel := ServingNorth(n, s.ctrl.dead);
    assert InRange(s, k) && InRange(s', k) && StreamOK(s, k.t);
    Replies.AbortedStreams(s, s', sel, k.t);
    ShareOf(DownQ(s, k.t), s.ctrl.conns, AtController, sel, STOP, ABORT, [], k);
    DropFind(s.ctrl.conns, AtController, OfNorth(n), k);
    if Find(s.ctrl.conns, AtController, k).Some? {
      Steps.EntryOf(s, k);
    }
    assert FlowOf(s, k).down + [] == FlowOf(s, k).down;
  }

  /** A client that is lost: its connections are forgotten, and those that still served it are told with one ABORT. */
  lemma ClientLost(s: Sys, n: nat, k: Key)
    requires Inv(s) && n < |s.ctrl.clients| && s.ctrl.clients[n].alive && k in s.hist
    ensures InRange(s, k) && Becomes(s, Next(s, NorthErr(n)), k, AfterClientLost(s, n, k))
  {
    hide C.NorthErr, CtrlOK, SegOK, ClientsOK, BackendsOK, NodesOK, StreamsOK, FlowsOK, Evolves, Becomes, AfterClientLost;
    Replies.NorthErrKeeps(s, n);
    ClientLostFlow(s, Next(s, NorthErr(n)), n, k);
  }

  function AfterTransportLost(s: Sys, t: nat, k: Key): F.Flow
    requires Valid(s) && k in s.hist && InRange(s, k)
  {
    var f := FlowOf(s, k);
    if k.t != t then f else f.(tAlive := false, conn := if f.conn.None? || !f.nAlive then None else Some(CLOSED))
  }

  lemma TransportLostFlow(s: Sys, s': Sys, t: nat, k: Key)
    requires Inv(s) && k in s.hist
    requires s' == s.(ctrl := C.SouthErr(s.ctrl, t)) && HistOK(s')
    ensures InRange(s, k) && Becomes(s, s', k, AfterTransportLost(s, t, k))
  {
    hide F.Sound, FlowsOK, NodesOK, Find, Proj, Parse, Got, StreamsOK, SegOK, ClientsOK, BackendsOK, Lawful, Touch, Drop;
    var orphans := Orphans(t, C.Gone(s.ctrl.clients));
    assert InRange(s, k) && InRange(s', k);
    var left := Drop(s.ctrl.conns, orphans);
    DropFind(s.ctrl.conns, AtController, orphans, k);
    DropDistinct(s.ctrl.conns, AtController, orphans);
    TouchState(left, AtController, OfSouth(t), STOP, ABORT, s.ctrl.now, k);
    if Find(s.ctrl.conns, AtController, k).Some? {
      Steps.EntryOf(s, k);
    }
  }

  /** A transport that is lost: its connections are CLOSED, or forgotten if their client is gone, and nothing is sent. */
  lemma TransportLost(s: Sys, t: nat, k: Key)
    requires Inv(s) && k in s.hist
    ensures InRange(s, k) && Becomes(s, Next(s, SouthErr(t)), k, AfterTransportLost(s, t, k))
  {
    hide C.SouthErr, CtrlOK, SegOK, ClientsOK, BackendsOK, NodesOK, StreamsOK, FlowsOK, Evolves, Becomes, AfterTransportLost;
    Replies.SouthErrKeeps(s, t);
    TransportLostFlow(s, Next(s, SouthErr(t)), t, k);
  }

  // ---------------------------------------------------------------------------
  // Failures at the segment

  function AfterBackendLost(s: Sys, b: nat, k: Key): F.Flow
    requires Valid(s) && k in s.hist && InRange(s, k)
  {
    var f := FlowOf(s, k);
    if s.hist[k].backend != Some(b) then f
    else f.(sconn := None, up := if F.Feeding(f) && k.t !in s.seg.dead then f.up + [AbortFrame(k.u)] else f.up)
  }

  lemma BackendLostFlow(s: Sys, s': Sys, b: nat, k: Key)
    requires Inv(s) && k in s.hist
    requires s' == s.(seg := G.SouthErr(s.seg, b)) && HistOK(s')
    ensures InRange(s, k) && Becomes(s, s', k, AfterBackendLost(s, b, k))
  {
    hide F.Sound, FlowsOK, NodesOK, Find, Proj, Parse, Got, StreamOK, CtrlOK, ClientsOK, BackendsOK, Addressed, Lawful, Notify, Drop;
    var sel := ServingSouth(b, s.seg.dead);
    assert InRange(s, k) && InRange(s', k) && StreamOK(s, k.t);
    Segments.AbortedStreams(s, s', sel, k.t);
    ShareOf(UpQ(s, k.t), s.seg.conns, AtSegment, sel, STOP, ABORT, [], k);
    DropFind(s.seg.conns, AtSegment, OfSouth(b), k);
    if Find(s.seg.conns, AtSegment, k).Some? {
      Segments.EntryOf(s, k);
    }
    assert FlowOf(s, k).up + [] == FlowOf(s, k).up;
  }

  /** A backend that is lost: its connection is forgotten, and the controller is told with one ABORT if it was still open
      and its transport lives. */
  lemma BackendLost(s: Sys, b: nat, k: Key)
    requires Inv(s) && k in s.hist
    ensures InRange(s, k) && Becomes(s, Next(s, SegSouthErr(b)), k, AfterBackendLost(s, b, k))
  {
    hide G.SouthErr, CtrlOK, SegOK, ClientsOK, BackendsOK, NodesOK, StreamsOK, FlowsOK, Evolves, Becomes, AfterBackendLost;
    Segments.SouthErrKeeps(s, b);
    BackendLostFlow(s, Next(s, SegSouthErr(b)), b, k);
  }

  function AfterLinkLost(s: Sys, t: nat, k: Key): F.Flow
    requires Valid(s) && k in s.hist && InRange(s, k)
  {
    var f := FlowOf(s, k);
    if k.t == t && f.sconn.Some? then f.(sconn := Some(CLOSED)) else f
  }

  lemma LinkLostFlow(s: Sys, s': Sys, t: nat, k: Key)
    requires Inv(s) && k in s.hist
    requires s' == s.(seg := G.NorthErr(s.seg, t)) && HistOK(s')
    ensures InRange(s, k) && Becomes(s, s', k, AfterLinkLost(s, t, k))
  {
    hide F.Sound, FlowsOK, NodesOK, Find, Proj, Parse, Got, StreamsOK, CtrlOK, ClientsOK, BackendsOK, Lawful, Touch;
    assert InRange(s, k) && InRange(s', k);
    TouchState(s.seg.conns, AtSegment, OfNorth(t), STOP, ABORT, s.seg.now, k);
    if Find(s.seg.conns, AtSegment, k).Some? {
      Segments.EntryOf(s, k);
    }
  }

  /** A transport that is lost at the segment: its connections are CLOSED, and nothing is sent. */
  lemma LinkLost(s: Sys, t: nat, k: Key)
    requires Inv(s) && k in s.hist
    ensures InRange(s, k) && Becomes(s, Next(s, SegNorthErr(t)), k, AfterLinkLost(s, t, k))
  {
    hide G.NorthErr, CtrlOK, SegOK, ClientsOK, BackendsOK, NodesOK, StreamsOK, FlowsOK, Evolves, Becomes, AfterLinkLost;
    Segments.NorthErrKeeps(s, t);
    LinkLostFlow(s, Next(s, SegNorthErr(t)), t, k);
  }

  // ---------------------------------------------------------------------------
  // Chunks of a backend

  /** One entry of the segment's table is replaced by what a frame makes of it. */
  lemma EntryAdvanced(s: Sys, s': Sys, b: nat, i: nat, op: byte, k: Key)
    requires Inv(s) && k in s.hist && b < |s.seg.backends| && i == G.MatchSouth(s.seg.conns, b, s.seg.dead) < |s.seg.conns|
    requires s' == s.(seg := s.seg.(conns := s.seg.conns[i := StateUpdate(s.seg.conns[i], op, 0, s.seg.now)])) && HistOK(s')
    ensures InRange(s, k) && var f := FlowOf(s, k);
      && (k == s.seg.backends[b].key ==> f.sconn.Some?)
      && Becomes(s, s', k, if k == s.seg.backends[b].key then f.(sconn := Some(NextState(f.sconn.value, op, 0))) else f)
      && (k == s.seg.backends[b].key ==> s'.seg.conns[i].state == NextState(f.sconn.value, op, 0))
    ensures s'.hist[k].backend == Some(b) <==> k == s.seg.backends[b].key
  {
    hide F.Sound, FlowsOK, G.MatchSouth, Parse, Lawful, Find, Proj, Got, NodesOK, CtrlOK, ClientsOK, StreamsOK, StateUpdate;
    assert InRange(s, k) && InRange(s', k);
    Segments.EntryOfBackend(s, b);
    StateUpdateIsLawful(s.seg.conns[i], op, 0, s.seg.now, s.seg.now);
    ReplaceFind(s.seg.conns, AtSegment, i, s'.seg.conns[i], k);
  }

  function AfterBackendHeard(s: Sys, b: nat, k: Key): F.Flow
    requires Valid(s) && b < |s.seg.backends| && k in s.hist && InRange(s, k)
    requires k == s.seg.backends[b].key ==> FlowOf(s, k).sconn.Some?
  {
    var f, x := FlowOf(s, k), Segments.Report(s, b);
    if k != s.seg.backends[b].key then f
    else
      var next := NextState(f.sconn.value, x.op, 0);
      f.(up := f.up + [x], framed := f.framed + f.bPend, bPend := [], sconn := if next == CLOSED then None else Some(next))
  }

  lemma AdvancedFlow(s: Sys, b: nat, k: Key)
    requires Inv(s) && k in s.hist && b < |s.seg.backends| && G.MatchSouth(s.seg.conns, b, s.seg.dead) < |s.seg.conns|
    ensures InRange(s, k) && var f := FlowOf(s, k);
      && (k == s.seg.backends[b].key ==> f.sconn.Some?)
      && Becomes(s, s.(seg := G.Advance(s.seg, b)), k,
           if k != s.seg.backends[b].key then f
           else
             var next := NextState(f.sconn.value, if s.seg.backends[b].eof then STOP else DATA, 0);
             f.(sconn := if next == CLOSED then None else Some(next)))
  {
    hide FlowOf, CtrlOK, SegOK, ClientsOK, BackendsOK, NodesOK, StreamsOK, FlowsOK, Evolves, G.MatchSouth, StateUpdate, G.SouthErr, NextState, InRange;
    var i := G.MatchSouth(s.seg.conns, b, s.seg.dead);
    var op := if s.seg.backends[b].eof then STOP else DATA;
    var c := StateUpdate(s.seg.conns[i], op, 0, s.seg.now);
    Segments.ReplaceKeeps(s, i, c);
    var m := s.(seg := s.seg.(conns := s.seg.conns[i := c]));
    EntryAdvanced(s, m, b, i, op, k);
    Segments.SouthErrKeeps(m, b);
    BackendLostFlow(m, m.(seg := G.SouthErr(m.seg, b)), b, k);
  }

  /** A backend's chunk, or its end of file, becomes exactly one frame on its own connection, whose state advances; the
      entry is forgotten when that closes it. */
  lemma BackendHeard(s: Sys, b: nat, k: Key)
    requires Inv(s) && G.Speaks(s.seg, b) && k in s.hist
    ensures InRange(s, k) && (k == s.seg.backends[b].key ==> FlowOf(s, k).sconn.Some?)
    ensures Becomes(s, Next(s, SegSouth(b)), k, AfterBackendHeard(s, b, k))
  {
    hide FlowOf, CtrlOK, SegOK, ClientsOK, BackendsOK, NodesOK, StreamsOK, FlowsOK, Evolves, G.MatchSouth, G.SouthErr, G.Advance, G.SendFrame, NextState, InRange;
    Segments.SentKeeps(s, b);
    Segments.SentIs(s, b, k);
    SentEntry(s, b);
    AdvancedFlow(Segments.Sent(s, b), b, k);
  }

  lemma SentEntry(s: Sys, b: nat)
    requires Valid(s) && G.Speaks(s.seg, b)
    ensures var g := G.SendFrame(s.seg, b);
      && |g.backends| == |s.seg.backends| && g.conns == s.seg.conns && g.dead == s.seg.dead
      && g.backends[b].key == s.seg.backends[b].key && g.backends[b].eof == s.seg.backends[b].eof
  {
    hide Encode, G.MatchSouth;
  }

  // ---------------------------------------------------------------------------
  // Frames that are not passed on

  lemma AbortSentDown(s: Sys, s': Sys, t: nat, u: Uuid, k: Key)
    requires Inv(s) && Replies.Answered(s, s', t, u) && k in s.hist
    ensures InRange(s, k) && var f := FlowOf(s, k);
      Becomes(s, s', k, if k == Key(t, u) then f.(down := f.down + [AbortFrame(u)]) else f)
  {
    hide F.Sound, FlowsOK, NodesOK, Find, Proj, Parse, Got, StreamOK, SegOK, ClientsOK, BackendsOK, CtrlOK, Encode;
    assert InRange(s, k) && InRange(s', k) && StreamOK(s, k.t);
    Replies.AnswerStream(s, s', t, u, k.t);
    ProjPush(DownQ(s, t), AbortFrame(u), k.u);
  }

  lemma AbortSentUp(s: Sys, s': Sys, t: nat, u: Uuid, k: Key)
    requires Inv(s) && Segments.Answered(s, s', t, u) && k in s.hist
    ensures InRange(s, k) && var f := FlowOf(s, k);
      Becomes(s, s', k, if k == Key(t, u) then f.(up := f.up + [AbortFrame(u)]) else f)
  {
    hide F.Sound, FlowsOK, NodesOK, Find, Proj, Parse, Got, StreamOK, SegOK, ClientsOK, BackendsOK, CtrlOK, Encode;
    assert InRange(s, k) && InRange(s', k) && StreamOK(s, k.t);
    Segments.AnswerStream(s, s', t, u, k.t);
    ProjPush(UpQ(s, t), AbortFrame(u), k.u);
  }

  /** A frame for connection `k` that is not passed on is taken off, and answered or not. */
  function AfterReply(f: F.Flow, k: Key, mine: bool, answered: bool): F.Flow {
    if !mine || f.up == [] then f
    else f.(up := f.up[1..], down := if answered then f.down + [AbortFrame(k.u)] else f.down)
  }

  /** A reply the controller rejects is taken off the transport and answered with one ABORT, unless it is one; one for a
      client that is gone is only taken off.  No other connection is touched. */
  lemma ReplyRefused(s: Sys, t: nat, k: Key)
    requires Inv(s) && Replies.Arrived(s, t) && k in s.hist
    requires var v := C.Judge(s.ctrl, t, Replies.Reply(s, t)); v.Reject? || v.Ignore?
    ensures InRange(s, k) && var x := Replies.Reply(s, t);
      && (k == Key(t, x.eid) ==> FlowOf(s, k).up != [] && FlowOf(s, k).up[0] == x)
      && Becomes(s, Next(s, CtrlSouth(t)), k,
           AfterReply(FlowOf(s, k), k, k == Key(t, x.eid), C.Judge(s.ctrl, t, x).Reject? && !IsAbort(x)))
  {
    hide F.Sound, F.Later, FlowOf, StreamsOK, CtrlOK, SegOK, ClientsOK, BackendsOK, NodesOK, FlowsOK, Evolves, C.Judge, Decode, Encode, C.Latch, C.AcceptFrame, C.MatchNode;
    var x, s1 := Replies.Reply(s, t), Replies.Taken(s, t);
    Replies.RejectedFlow(s, t);
    Replies.UnwantedKeeps(s, t);
    Replies.TakenFlow(s, t, k);
    Replies.ReplyIsKnown(s, t);
    if C.Judge(s.ctrl, t, x).Reject? && !IsAbort(x) {
      AbortSentDown(s1, Next(s, CtrlSouth(t)), t, x.eid, k);
    } else {
      assert Next(s, CtrlSouth(t)) == s1;
    }
  }

  function AfterOrder(f: F.Flow, k: Key, mine: bool, answered: bool): F.Flow {
    if !mine || f.down == [] then f
    else f.(down := f.down[1..], up := if answered then f.up + [AbortFrame(k.u)] else f.up)
  }

  /** A frame for no open connection, and that opens none, is taken off and answered with one ABORT, unless it is one. */
  lemma OrderRefused(s: Sys, t: nat, k: Key)
    requires Inv(s) && Segments.Arrived(s, t) && k in s.hist && G.Judge(s.seg, t, Segments.Order(s, t)).Reject?
    ensures InRange(s, k) && var x := Segments.Order(s, t);
      && (k == Key(t, x.eid) ==> FlowOf(s, k).down != [] && FlowOf(s, k).down[0] == x)
      && Becomes(s, Next(s, SegNorth(t)), k, AfterOrder(FlowOf(s, k), k, k == Key(t, x.eid), !IsAbort(x)))
  {
    hide F.Sound, F.Later, FlowOf, StreamsOK, CtrlOK, SegOK, ClientsOK, BackendsOK, NodesOK, FlowsOK, Evolves, G.Judge, Decode, Encode, G.Connect, G.AcceptFrame, G.MatchKey;
    var x, s1 := Segments.Order(s, t), Segments.Taken(s, t);
    Segments.UnwantedKeeps(s, t);
    Segments.TakenFlow(s, t, k);
    Segments.OrderIsKnown(s, t);
    if !IsAbort(x) {
      AbortSentUp(s1, Next(s, SegNorth(t)), t, x.eid, k);
    } else {
      assert Next(s, SegNorth(t)) == s1;
    }
  }
}
