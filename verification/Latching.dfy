/** Half-duplex latching: what the first reply does to a session, and for how long. */
module Latching {
  import opened Frames
  import opened Connections
  import opened Reassembly
  import opened System
  import opened Invariant
  import opened Theorems
  import Runs = LatchRuns
  import Replies = ControllerReplies
  import Steps = ControllerSteps
  import Streams
  import F = Flow
  import C = Controller
  import G = Segment

  /** Connection `k` is closed or forgotten at the controller. */
  predicate Over(s: Sys, k: Key) {
    var c := Find(s.ctrl.conns, AtController, k);
    c.None? || c.value.state == CLOSED
  }

  /** Of the session's connections, only the one on transport `t` may still be in use. */
  predicate Latched(s: Sys, u: Uuid, t: nat) {
    forall k :: k in s.hist && k.u == u && k.t != t ==> Over(s, k)
  }

  /** A reply with data has arrived complete on `t`, and the controller is about to pass it on. */
  predicate DataReply(s: Sys, t: nat)
    requires Valid(s)
  {
    Replies.Arrived(s, t) && C.Judge(s.ctrl, t, Replies.Reply(s, t)).Accept? && Replies.Reply(s, t).payload != []
  }

  /** The state the replying connection is in when the reply is handled. */
  function Winner(s: Sys, t: nat): Conn
    requires Valid(s) && DataReply(s, t)
  {
    s.ctrl.conns[C.MatchNode(s.ctrl.conns, t, Replies.Reply(s, t).eid)]
  }

  /** What the guard of the latch looks at. */
  predicate WillLatch(s: Sys, t: nat)
    requires Valid(s) && DataReply(s, t)
  {
    s.ctrl.mode.HALF_DUPLEX? && Winner(s, t).state == HALF_OPEN
  }

  /** Latching, seen from a connection of the session on another transport. */
  lemma SiblingAfterLatch(s: Sys, t: nat, u: Uuid, k: Key)
    requires Inv(s) && k in s.hist
    ensures var s' := s.(ctrl := C.Latch(s.ctrl, t, u));
      && Inv(s') && Valid(s') && InRange(s', k)
      && var f, f' := FlowOf(s, k), FlowOf(s', k);
      var hit := k.u == u && k.t != t && f.conn.Some? && f.conn.value < HALF_CLOSED;
      f' == if hit then f.(conn := Some(CLOSED), down := f.down + [AbortFrame(u)]) else f
  {
    hide F.Sound, F.Later, FlowsOK, NodesOK, Find, Proj, Parse, Got, StreamsOK, SegOK, ClientsOK, BackendsOK, CtrlOK, Touch, Notify;
    Replies.LatchKeeps(s, t, u);
    assert InRange(s, k) && InRange(s.(ctrl := C.Latch(s.ctrl, t, u)), k);
    SiblingParts(s, t, u, k);
  }

  lemma SiblingParts(s: Sys, t: nat, u: Uuid, k: Key)
    requires Inv(s) && k in s.hist && k.t < Width(s)
    ensures var s' := s.(ctrl := C.Latch(s.ctrl, t, u));
      var c := StateOf(Find(s.ctrl.conns, AtController, k));
      var hit := k.u == u && k.t != t && c.Some? && c.value < HALF_CLOSED;
      && StateOf(Find(s'.ctrl.conns, AtController, k)) == (if hit then Some(CLOSED) else c)
      && Proj(DownQ(s', k.t), k.u) == Proj(DownQ(s, k.t), k.u) + (if hit then [AbortFrame(u)] else [])
      && UpQ(s', k.t) == UpQ(s, k.t)
  {
    hide FlowsOK, NodesOK, Find, Proj, Parse, StreamOK, SegOK, ClientsOK, BackendsOK, Addressed, Lawful, Touch, Notify;
    var s', sel := s.(ctrl := C.Latch(s.ctrl, t, u)), Siblings(u, t, s.ctrl.dead);
    assert StreamOK(s, k.t);
    Replies.AbortedStreams(s, s', sel, k.t);
    Streams.ShareOf(DownQ(s, k.t), s.ctrl.conns, AtController, sel, STOP, ABORT, [], k);
    Streams.TouchState(s.ctrl.conns, AtController, sel, STOP, ABORT, s.ctrl.now, k);
    if Find(s.ctrl.conns, AtController, k).Some? {
      Steps.EntryOf(s, k);
      LiveEntry(s, k);
    }
  }

  /** What a data reply that meets the latch's guard does, in one step: every sibling that is not yet
      HALF_CLOSED is sent exactly one ABORT and is CLOSED, its other siblings and all other sessions are untouched. */
  lemma LatchStep(s: Sys, t: nat, k: Key)
    requires Inv(s) && DataReply(s, t) && WillLatch(s, t) && k in s.hist
    ensures var s' := Next(s, CtrlSouth(t));
      var x := Replies.Reply(s, t);
      && Inv(s') && k in s'.hist
      && var f, f' := FlowOf(s, k), FlowOf(s', k);
      && (k.u != x.eid ==> f' == f)
      && (k.u == x.eid && k.t != t ==>
            f' == if f.conn.Some? && f.conn.value < HALF_CLOSED then f.(conn := Some(CLOSED), down := f.down + [AbortFrame(k.u)]) else f)
      && (k == Key(t, x.eid) ==> f'.got == f.got + x.payload)
  {
    hide F.Sound, F.Later, FlowOf, StreamsOK, Tables, FlowsOK, C.Judge, C.AcceptFrame, C.Latch, C.MatchNode, Next, Evolves, Decode, NextState;
    Replies.PassedKeeps(s, t);
    Replies.LatchLast(s, t);
    Replies.PassedFlow(s, t, k);
    SiblingAfterLatch(Replies.Passed(s, t), t, Replies.Reply(s, t).eid, k);
  }

  /** Without the guard, a data reply leaves every other connection alone. */
  lemma NoLatchStep(s: Sys, t: nat, k: Key)
    requires Inv(s) && DataReply(s, t) && !WillLatch(s, t) && k in s.hist && k != Key(t, Replies.Reply(s, t).eid)
    ensures Inv(Next(s, CtrlSouth(t))) && k in Next(s, CtrlSouth(t)).hist
    ensures FlowOf(Next(s, CtrlSouth(t)), k) == FlowOf(s, k)
  {
    hide F.Sound, F.Later, FlowOf, StreamsOK, Tables, FlowsOK, C.Judge, C.AcceptFrame, C.Latch, C.MatchNode, Next, Evolves, Decode, NextState;
    Replies.PassedKeeps(s, t);
    Replies.LatchLast(s, t);
    Replies.PassedFlow(s, t, k);
  }

  lemma OverMeans(s: Sys, k: Key)
    requires Valid(s) && k in s.hist && InRange(s, k)
    ensures Over(s, k) <==> FlowOf(s, k).conn.None? || FlowOf(s, k).conn.value == CLOSED
  {
  }

  /** The documented promise -- a data reply turns the session into a one-to-one session -- holds exactly
      when every sibling is closed already, or the latch's guard is met and no sibling is HALF_CLOSED. */
  lemma LatchIsExact(s: Sys, t: nat)
    requires Inv(s) && DataReply(s, t)
    ensures var u := Replies.Reply(s, t).eid;
      Latched(Next(s, CtrlSouth(t)), u, t) <==>
        forall k :: k in s.hist && k.u == u && k.t != t ==>
          Over(s, k) || (WillLatch(s, t) && Find(s.ctrl.conns, AtController, k).value.state != HALF_CLOSED)
  {
    hide F.Sound, F.Later, FlowOf, StreamsOK, CtrlOK, SegOK, ClientsOK, BackendsOK, FlowsOK, C.Judge, Find, WillLatch, Winner;
    var s', u := Next(s, CtrlSouth(t)), Replies.Reply(s, t).eid;
    assert s'.hist == s.hist by { SameHist(s, t); }
    Replies.CtrlSouthKeeps(s, t);
    forall k | k in s.hist && k.u == u && k.t != t
      ensures Over(s', k) <==> Over(s, k) || (WillLatch(s, t) && Find(s.ctrl.conns, AtController, k).value.state != HALF_CLOSED)
    {
      OverMeans(s, k);
      OverMeans(s', k);
      SameState(s, k);
      if WillLatch(s, t) {
        LatchStep(s, t, k);
      } else {
        NoLatchStep(s, t, k);
      }
    }
  }

  lemma SameHist(s: Sys, t: nat)
    requires Valid(s)
    ensures Next(s, CtrlSouth(t)).hist == s.hist
  {
    hide C.SouthRoute, C.Judge;
  }

  lemma SameState(s: Sys, k: Key)
    requires Valid(s) && k in s.hist && InRange(s, k)
    ensures FlowOf(s, k).conn == StateOf(Find(s.ctrl.conns, AtController, k))
  {
  }

  /** In the state both runs below lead to, an answer is about to be passed on while the other connection is in `b`. */
  lemma AnswerMeetsSession(mode: C.Mode, steps: seq<Step>, u: Uuid, a: State, b: State)
    requires Runs.Answered(Reach(mode, steps), u, a, b) && a < HALF_CLOSED && b != CLOSED && (a != HALF_OPEN || b == HALF_CLOSED)
    ensures var s := Reach(mode, steps);
      && DataReply(s, 0) && Replies.Reply(s, 0) == Runs.Answer(u) && Key(1, u) in s.hist
      && Find(s.ctrl.conns, AtController, Key(0, u)).Some? && Find(s.ctrl.conns, AtController, Key(0, u)).value.state == a
      && Find(s.ctrl.conns, AtController, Key(1, u)).Some? && Find(s.ctrl.conns, AtController, Key(1, u)).value.state == b
      && !Latched(Next(s, CtrlSouth(0)), u, 0)
  {
    hide Reach, Inv, Encode, Decode, Find, Next, Latched;
    var s := Reach(mode, steps);
    Reachable(mode, steps);
    Runs.PullsWhole(Runs.Answer(u));
    assert C.MatchNode(s.ctrl.conns, 0, u) == 0;
    assert C.Judge(s.ctrl, 0, Runs.Answer(u)) == C.Accept;
    FindAt(s.ctrl.conns, AtController, 0);
    FindAt(s.ctrl.conns, AtController, 1);
    LatchIsExact(s, 0);
    assert !Over(s, Key(1, u));
  }

  /** The documented promise fails in a run of two backends in which the client sends twice before the first answer:
      the answer is passed on, and the other connection stays open. */
  lemma SecondChunkDefeatsLatch(u: Uuid)
    ensures var s := Reach(C.HALF_DUPLEX, Runs.TwoChunks(u));
      && DataReply(s, 0) && Replies.Reply(s, 0) == Runs.Answer(u) && Key(1, u) in s.hist
      && Find(s.ctrl.conns, AtController, Key(1, u)).Some? && Find(s.ctrl.conns, AtController, Key(1, u)).value.state == OPEN
      && !Latched(Next(s, CtrlSouth(0)), u, 0)
  {
    hide Reach, DataReply, Find, Next, Latched;
    Runs.TwoChunksRun(u);
    AnswerMeetsSession(C.HALF_DUPLEX, Runs.TwoChunks(u), u, OPEN, OPEN);
  }

  /** It fails also in a run in which the client sends once, when the other backend ends first without a word: the
      answer meets the latch's guard, and still the other connection stays HALF_CLOSED. */
  lemma SilentEndDefeatsLatch(u: Uuid)
    ensures var s := Reach(C.HALF_DUPLEX, Runs.SilentEnd(u));
      && DataReply(s, 0) && Replies.Reply(s, 0) == Runs.Answer(u) && Key(1, u) in s.hist
      && Find(s.ctrl.conns, AtController, Key(0, u)).Some? && Find(s.ctrl.conns, AtController, Key(0, u)).value.state == HALF_OPEN
      && Find(s.ctrl.conns, AtController, Key(1, u)).Some? && Find(s.ctrl.conns, AtController, Key(1, u)).value.state == HALF_CLOSED
      && !Latched(Next(s, CtrlSouth(0)), u, 0)
  {
    hide Reach, DataReply, Find, Next, Latched;
    Runs.SilentEndRun(u);
    AnswerMeetsSession(C.HALF_DUPLEX, Runs.SilentEnd(u), u, HALF_OPEN, HALF_CLOSED);
  }

  /** A latched session stays latched: for the rest of the run, whatever happens, no payload is framed to a
      sibling and none from it is passed on, and no new connection joins the session. */
  lemma LatchedForGood(s: Sys, more: seq<Step>, u: Uuid, t: nat)
    requires Inv(s) && Latched(s, u, t) && exists k :: k in s.hist && k.u == u
    ensures var s' := Exec(s, more);
      && Inv(s') && Latched(s', u, t)
      && forall k :: k in s'.hist && k.u == u && k.t != t ==>
          && k in s.hist && InRange(s, k) && InRange(s', k)
          && s'.hist[k].sent == s.hist[k].sent && FlowOf(s', k).got == FlowOf(s, k).got
  {
    hide F.Sound, F.Later, FlowOf, StreamsOK, CtrlOK, SegOK, ClientsOK, BackendsOK, FlowsOK, Over;
    var s' := Exec(s, more);
    ExecKeeps(s, more);
    forall k | k in s'.hist && k.u == u && k.t != t
      ensures k in s.hist && Over(s', k) && s'.hist[k].sent == s.hist[k].sent && FlowOf(s', k).got == FlowOf(s, k).got
    {
      OverForGood(s, s', k);
    }
  }

  lemma OverForGood(s: Sys, s': Sys, k: Key)
    requires Inv(s) && Inv(s') && Evolves(s, s') && k in s.hist && Over(s, k)
    ensures Over(s', k) && s'.hist[k].sent == s.hist[k].sent && FlowOf(s', k).got == FlowOf(s, k).got
  {
    hide F.Sound, Find, Proj, Parse, Got, StreamsOK, NodesOK, NewNodes, CtrlOK, SegOK, ClientsOK, BackendsOK;
    OverMeans(s, k);
    OverMeans(s', k);
    assert F.Later(FlowOf(s, k), FlowOf(s', k));
  }

  /** Latch exclusivity over whole runs: from any reachable state in which a data reply meets a session whose
      connections are all HALF_OPEN, however the run goes on, payload under that UUID is exchanged with the winner only. */
  lemma LatchExclusivity(mode: C.Mode, steps: seq<Step>, t: nat, more: seq<Step>, k: Key)
    requires mode.HALF_DUPLEX?
    requires var s := Reach(mode, steps);
      && DataReply(s, t) && k in s.hist && k.u == Replies.Reply(s, t).eid && k.t != t
      && forall l :: l in s.hist && l.u == k.u && !Over(s, l) ==> Find(s.ctrl.conns, AtController, l).value.state == HALF_OPEN
    ensures var s := Reach(mode, steps);
      var s1 := Next(s, CtrlSouth(t));
      var s' := Exec(s1, more);
      && k in s1.hist && k in s'.hist && InRange(s1, k) && InRange(s', k)
      && Over(s', k) && s'.hist[k].sent == s.hist[k].sent && FlowOf(s', k).got == FlowOf(s1, k).got
  {
    hide F.Sound, F.Later, FlowOf, StreamsOK, CtrlOK, SegOK, ClientsOK, BackendsOK, FlowsOK, C.Judge, Winner, Find, Next, Evolves, NodesOK, Exec;
    var s := Reach(mode, steps);
    var s1 := Next(s, CtrlSouth(t));
    Reachable(mode, steps);
    SameHist(s, t);
    Replies.CtrlSouthKeeps(s, t);
    ModeIsFixed(mode, steps);
    assert WillLatch(s, t) by { WinnerState(s, t); }
    LatchIsExact(s, t);
    assert Latched(s1, k.u, t);
    LatchedForGood(s1, more, k.u, t);
    assert k in Exec(s1, more).hist by { StillKnown(s1, more, k); }
  }

  lemma StillKnown(s: Sys, more: seq<Step>, k: Key)
    requires Inv(s) && k in s.hist
    ensures Inv(Exec(s, more)) && k in Exec(s, more).hist
  {
    hide F.Later, FlowOf, StreamsOK, CtrlOK, SegOK, ClientsOK, BackendsOK, FlowsOK, Exec;
    ExecKeeps(s, more);
  }

  lemma WinnerState(s: Sys, t: nat)
    requires Inv(s) && DataReply(s, t)
    ensures var k := Key(t, Replies.Reply(s, t).eid);
      && k in s.hist && !Over(s, k) && Winner(s, t) == Find(s.ctrl.conns, AtController, k).value
  {
    hide F.Sound, C.Judge, C.MatchNode, Find, StreamOK, Lawful, Proj, Parse, Got;
    Replies.AcceptedEntry(s, t);
  }

  lemma HandlersKeepMode(c: C.Ctrl, n: nat, t: nat, k: nat, chunk: seq<byte>, eof: bool)
    requires C.Valid(c)
    ensures C.ClientRead(c, n, chunk, eof).mode == C.ClientFlush(c, n, k).mode == C.NewClient(c).mode == c.mode
    ensures C.NorthErr(c, n).mode == C.SouthErr(c, t).mode == C.ConnectFail(c, t, n).mode == C.StateHandler(c, n).mode == c.mode
  {
    hide Notify, Touch, Drop, C.SessionState;
  }

  lemma RouteKeepsMode(s: Sys, n: nat, ts: seq<nat>, u: Uuid)
    requires Valid(s)
    ensures DoNorthRoute(s, n, ts, u).ctrl.mode == s.ctrl.mode
  {
    hide C.Refuses, C.AnyHit, C.Connected, Notify, Touch, FanOutHist, ConnectHist, C.NewConns;
  }

  lemma ReplyKeepsMode(s: Sys, t: nat)
    requires Valid(s)
    ensures DoCtrlSouth(s, t).ctrl.mode == s.ctrl.mode
  {
    hide C.MatchNode, Notify, Touch, StateUpdate, Encode, Decode;
  }

  predicate AtClients(step: Step) {
    step.ClientRead? || step.ClientFlush? || step.NorthErr? || step.NorthState? || step.SouthErr? || step.ConnectFail? || step.NorthRoute? || step.CtrlSouth?
  }

  lemma ClientsKeepMode(s: Sys, step: Step)
    requires Valid(s) && AtClients(step)
    ensures Next(s, step).ctrl.mode == s.ctrl.mode
  {
    hide C.ClientRead, C.ClientFlush, C.NorthErr, C.SouthErr, C.ConnectFail, C.StateHandler, DoNorthRoute, DoCtrlSouth;
    match step
    case ClientRead(n, chunk, eof) => HandlersKeepMode(s.ctrl, n, 0, 0, chunk, eof);
    case ClientFlush(n, k) => HandlersKeepMode(s.ctrl, n, 0, k, [], false);
    case NorthErr(n) => HandlersKeepMode(s.ctrl, n, 0, 0, [], false);
    case NorthState(n) => HandlersKeepMode(s.ctrl, n, 0, 0, [], false);
    case SouthErr(t) => HandlersKeepMode(s.ctrl, 0, t, 0, [], false);
    case ConnectFail(t, n) => HandlersKeepMode(s.ctrl, n, t, 0, [], false);
    case NorthRoute(n, ts, u) => RouteKeepsMode(s, n, ts, u);
    case CtrlSouth(t) => ReplyKeepsMode(s, t);
  }

  lemma NextKeepsMode(s: Sys, step: Step)
    requires Valid(s)
    ensures Next(s, step).ctrl.mode == s.ctrl.mode
  {
    hide G.NorthRoute, G.SouthRoute, G.Judge, G.NorthErr, G.SouthErr, G.ConnectFail, G.StateHandler, G.BackendRead, G.BackendFlush, Decode, Pull;
    if AtClients(step) {
      hide Next;
      ClientsKeepMode(s, step);
    }
  }

  lemma {:induction false} ModeStays(s: Sys, steps: seq<Step>)
    requires Valid(s)
    ensures Exec(s, steps).ctrl.mode == s.ctrl.mode
    decreases steps
  {
    hide Next;
    if steps != [] {
      NextKeepsMode(s, steps[0]);
      ModeStays(Next(s, steps[0]), steps[1..]);
    }
  }

  lemma ModeIsFixed(mode: C.Mode, steps: seq<Step>)
    ensures Reach(mode, steps).ctrl.mode == mode
  {
    ModeStays(Start(mode), steps);
  }
}
