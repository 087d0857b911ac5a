/** Abort quiescence: left to themselves, controller and segment stop exchanging frames. */
module Quiescence {
  import opened Frames
  import opened Connections
  import opened Reassembly
  import opened System
  import opened Invariant
  import opened Theorems
  import Replies = ControllerReplies
  import Segments = SegmentSteps
  import F = Flow
  import C = Controller
  import G = Segment

  /** An ABORT is never answered; a frame that opens a session makes an entry at the segment. */
  function Cost(f: Frame): nat {
    (if IsAbort(f) then 1 else 2) + (if IsInit(f) then 1 else 0)
  }

  function Weight(q: seq<Frame>): nat {
    if q == [] then 0 else Weight(q[..|q| - 1]) + Cost(q[|q| - 1])
  }

  function Total(qs: seq<seq<Frame>>): nat {
    if qs == [] then 0 else Total(qs[..|qs| - 1]) + Weight(qs[|qs| - 1])
  }

  /** Connections that are not CLOSED: those the controller could still abort. */
  function Unclosed(conns: seq<Conn>): nat {
    if conns == [] then 0 else Unclosed(conns[..|conns| - 1]) + (if conns[|conns| - 1].state != CLOSED then 1 else 0)
  }

  function DownQs(s: Sys): (qs: seq<seq<Frame>>)
    requires Valid(s)
    ensures |qs| == Width(s) && forall t :: 0 <= t < Width(s) ==> qs[t] == DownQ(s, t)
  {
    seq(Width(s), t requires 0 <= t < Width(s) => DownQ(s, t))
  }

  function UpQs(s: Sys): (qs: seq<seq<Frame>>)
    requires Valid(s)
    ensures |qs| == Width(s) && forall t :: 0 <= t < Width(s) ==> qs[t] == UpQ(s, t)
  {
    seq(Width(s), t requires 0 <= t < Width(s) => UpQ(s, t))
  }

  /** Twice the frames in flight that are not ABORTs, plus the ABORTs, plus one for each that opens a session, plus the
      controller's connections that are not CLOSED, plus the segment's entries. */
  function Measure(s: Sys): nat
    requires Valid(s)
  {
    Total(DownQs(s)) + Total(UpQs(s)) + Unclosed(s.ctrl.conns) + |s.seg.conns|
  }

  // ---------------------------------------------------------------------------
  // Arithmetic of the measure

  lemma {:induction false} WeightAppend(a: seq<Frame>, b: seq<Frame>)
    ensures Weight(a + b) == Weight(a) + Weight(b)
  {
    if b == [] {
      assert a + b == a;
    } else {
      assert (a + b)[..|a + b| - 1] == a + b[..|b| - 1];
      WeightAppend(a, b[..|b| - 1]);
    }
  }

  lemma WeightOne(f: Frame)
    ensures Weight([f]) == Cost(f)
  {
    assert [f][..0] == [];
  }

  lemma {:induction false} TotalUpdate(qs: seq<seq<Frame>>, t: nat, q: seq<Frame>)
    requires t < |qs|
    ensures Total(qs[t := q]) == Total(qs) - Weight(qs[t]) + Weight(q)
  {
    var n := |qs| - 1;
    if t == n {
      assert qs[t := q][..n] == qs[..n];
    } else {
      assert qs[t := q][..n] == qs[..n][t := q];
      TotalUpdate(qs[..n], t, q);
    }
  }

  lemma {:induction false} UnclosedUpdate(conns: seq<Conn>, i: nat, c: Conn)
    requires i < |conns| && c.state >= conns[i].state
    ensures Unclosed(conns[i := c]) <= Unclosed(conns)
  {
    var n := |conns| - 1;
    if i == n {
      assert conns[i := c][..n] == conns[..n];
    } else {
      assert conns[i := c][..n] == conns[..n][i := c];
      UnclosedUpdate(conns[..n], i, c);
    }
  }

  function Hits(conns: seq<Conn>, sel: Sel): nat {
    if conns == [] then 0 else Hits(conns[..|conns| - 1], sel) + (if Hit(sel, conns[|conns| - 1]) then 1 else 0)
  }

  /** Each open connection that is aborted leaves the count. */
  lemma {:induction false} UnclosedAborted(conns: seq<Conn>, sel: Sel, now: int)
    ensures Unclosed(Touch(conns, sel, STOP, ABORT, now)) <= Unclosed(conns)
    ensures (forall c :: Hit(sel, c) ==> c.state != CLOSED) ==>
      Unclosed(Touch(conns, sel, STOP, ABORT, now)) + Hits(conns, sel) <= Unclosed(conns)
  {
    hide Hit;
    if conns != [] {
      var n := |conns| - 1;
      UnclosedAborted(conns[..n], sel, now);
      var r := Touch(conns, sel, STOP, ABORT, now);
      assert r[..n] == Touch(conns[..n], sel, STOP, ABORT, now);
      assert r[n] == Touched(conns[n], sel, STOP, ABORT, now);
    }
  }

  /** So does each open connection that is forgotten. */
  lemma {:induction false} UnclosedDropped(conns: seq<Conn>, drop: Sel, sel: Sel)
    ensures Unclosed(Drop(conns, drop)) <= Unclosed(conns)
    ensures (forall c :: Hit(sel, c) ==> Hit(drop, c) && c.state != CLOSED) ==>
      Unclosed(Drop(conns, drop)) + Hits(conns, sel) <= Unclosed(conns)
  {
    hide Hit;
    if conns != [] {
      var n := |conns| - 1;
      UnclosedDropped(conns[..n], drop, sel);
      DropLast(conns, drop);
      UnclosedMore(Drop(conns[..n], drop), conns[n]);
    }
  }

  lemma UnclosedMore(conns: seq<Conn>, c: Conn)
    ensures Unclosed(conns + [c]) == Unclosed(conns) + (if c.state != CLOSED then 1 else 0)
  {
    assert (conns + [c])[..|conns|] == conns;
  }

  lemma {:induction false} FewerEntries(conns: seq<Conn>, drop: Sel, sel: Sel)
    requires forall c :: Hit(sel, c) ==> Hit(drop, c)
    ensures |Drop(conns, drop)| + Hits(conns, sel) <= |conns|
  {
    hide Hit;
    if conns != [] {
      var n := |conns| - 1;
      FewerEntries(conns[..n], drop, sel);
      DropLast(conns, drop);
    }
  }

  lemma DropLast(conns: seq<Conn>, drop: Sel)
    requires conns != []
    ensures var n := |conns| - 1;
      Drop(conns, drop) == Drop(conns[..n], drop) + (if Hit(drop, conns[n]) then [] else [conns[n]])
  {
    hide Hit;
  }

  function Aborts(qs: seq<seq<Frame>>, conns: seq<Conn>, side: Side, sel: Sel): (r: seq<seq<Frame>>)
    ensures |r| == |qs| && forall t :: 0 <= t < |qs| ==> r[t] == qs[t] + Addressed(conns, side, sel, STOP, ABORT, [], t)
  {
    seq(|qs|, t requires 0 <= t < |qs| => qs[t] + Addressed(conns, side, sel, STOP, ABORT, [], t))
  }

  lemma AbortsOne(qs: seq<seq<Frame>>, conns: seq<Conn>, side: Side, sel: Sel)
    requires conns != [] && Bus(side, conns[|conns| - 1]) < |qs|
    ensures var c, before := conns[|conns| - 1], Aborts(qs, conns[..|conns| - 1], side, sel);
      Aborts(qs, conns, side, sel) == if Hit(sel, c) then before[Bus(side, c) := before[Bus(side, c)] + [AbortFrame(c.uuid)]] else before
  {
    hide Hit, Bus;
    var front, c := conns[..|conns| - 1], conns[|conns| - 1];
    var before, after := Aborts(qs, front, side, sel), Aborts(qs, conns, side, sel);
    forall t | 0 <= t < |qs| ensures after[t] == if Hit(sel, c) && t == Bus(side, c) then before[t] + [AbortFrame(c.uuid)] else before[t] {
      var a := Addressed(front, side, sel, STOP, ABORT, [], t);
      assert qs[t] + (a + [AbortFrame(c.uuid)]) == (qs[t] + a) + [AbortFrame(c.uuid)];
    }
  }

  /** ... and adds one ABORT to what is in flight. */
  lemma {:induction false} TotalAborts(qs: seq<seq<Frame>>, conns: seq<Conn>, side: Side, sel: Sel)
    requires forall c :: c in conns ==> Bus(side, c) < |qs|
    ensures Total(Aborts(qs, conns, side, sel)) == Total(qs) + Hits(conns, sel)
  {
    hide Hit, Addressed, Bus, Total, Aborts;
    if conns == [] {
      assert Aborts(qs, conns, side, sel) == qs by { NoAborts(qs, side, sel); }
    } else {
      var front, c := conns[..|conns| - 1], conns[|conns| - 1];
      TotalAborts(qs, front, side, sel);
      assert c in conns;
      AbortsOne(qs, conns, side, sel);
      TotalOneMore(Aborts(qs, front, side, sel), Bus(side, c), c.uuid);
    }
  }

  lemma TotalOneMore(qs: seq<seq<Frame>>, t: nat, u: Uuid)
    requires t < |qs|
    ensures Total(qs[t := qs[t] + [AbortFrame(u)]]) == Total(qs) + 1
  {
    hide Total, Weight;
    TotalUpdate(qs, t, qs[t] + [AbortFrame(u)]);
    WeightAppend(qs[t], [AbortFrame(u)]);
    WeightOne(AbortFrame(u));
  }

  lemma NoAborts(qs: seq<seq<Frame>>, side: Side, sel: Sel)
    ensures Aborts(qs, [], side, sel) == qs
  {
    forall t | 0 <= t < |qs| ensures Aborts(qs, [], side, sel)[t] == qs[t] {
      assert qs[t] + [] == qs[t];
    }
  }

  // ---------------------------------------------------------------------------
  // Frames received

  /** A complete frame is there and is not held up by a full stream. */
  predicate Receives(s: Sys, step: Step)
    requires Valid(s)
  {
    match step
    case SegNorth(t) => Segments.Arrived(s, t) && !G.Judge(s.seg, t, Segments.Order(s, t)).Block?
    case CtrlSouth(t) => Replies.Arrived(s, t) && !C.Judge(s.ctrl, t, Replies.Reply(s, t)).Block?
    case _ => false
  }

  /** Any step but the four that take input from a client or a backend: reading from it, and routing what was read or
      its end of file.  Clocks, transports, receiving ends, flushes, state handlers and all failures are among them. */
  predicate Silent(step: Step) {
    !step.ClientRead? && !step.NorthRoute? && !step.BackendRead? && !step.SegSouth?
  }

  lemma TakenDown(s: Sys, t: nat)
    requires Inv(s) && Segments.Arrived(s, t)
    ensures Measure(Segments.Taken(s, t)) == Measure(s) - Cost(Segments.Order(s, t))
  {
    hide F.Sound, FlowsOK, Tables, Parse, FrameStream, Decode, Complete;
    var s', f := Segments.Taken(s, t), Segments.Order(s, t);
    forall r | 0 <= r < Width(s) ensures UpQ(s', r) == UpQ(s, r) && (r != t ==> DownQ(s', r) == DownQ(s, r)) && DownQ(s, t) == [f] + DownQ(s', t) {
      assert StreamOK(s, r) && StreamOK(s, t);
      Segments.TakenStreams(s, t, r);
      Segments.TakenStreams(s, t, t);
    }
    assert UpQs(s') == UpQs(s);
    assert DownQs(s') == DownQs(s)[t := DownQ(s', t)];
    TotalUpdate(DownQs(s), t, DownQ(s', t));
    WeightAppend([f], DownQ(s', t));
    WeightOne(f);
  }

  lemma TakenUp(s: Sys, t: nat)
    requires Inv(s) && Replies.Arrived(s, t)
    ensures Measure(Replies.Taken(s, t)) == Measure(s) - Cost(Replies.Reply(s, t))
  {
    hide F.Sound, FlowsOK, Tables, Parse, FrameStream, Decode, Complete;
    var s', f := Replies.Taken(s, t), Replies.Reply(s, t);
    forall r | 0 <= r < Width(s) ensures DownQ(s', r) == DownQ(s, r) && (r != t ==> UpQ(s', r) == UpQ(s, r)) && UpQ(s, t) == [f] + UpQ(s', t) {
      assert StreamOK(s, r) && StreamOK(s, t);
      Replies.TakenStreams(s, t, r);
      Replies.TakenStreams(s, t, t);
    }
    assert DownQs(s') == DownQs(s);
    assert UpQs(s') == UpQs(s)[t := UpQ(s', t)];
    TotalUpdate(UpQs(s), t, UpQ(s', t));
    WeightAppend([f], UpQ(s', t));
    WeightOne(f);
  }

  lemma AnswerUp(s: Sys, s': Sys, t: nat, u: Uuid)
    requires Inv(s) && Segments.Answered(s, s', t, u)
    ensures Valid(s') && Measure(s') == Measure(s) + 1
  {
    hide F.Sound, FlowsOK, Tables, Parse, FrameStream, Encode;
    forall r | 0 <= r < Width(s) ensures DownQ(s', r) == DownQ(s, r) && UpQ(s', r) == if r == t then UpQ(s, t) + [AbortFrame(u)] else UpQ(s, r) {
      assert StreamOK(s, r);
      Segments.AnswerStream(s, s', t, u, r);
    }
    assert DownQs(s') == DownQs(s);
    assert UpQs(s') == UpQs(s)[t := UpQ(s, t) + [AbortFrame(u)]];
    TotalUpdate(UpQs(s), t, UpQ(s, t) + [AbortFrame(u)]);
    WeightAppend(UpQ(s, t), [AbortFrame(u)]);
    WeightOne(AbortFrame(u));
  }

  lemma AnswerDown(s: Sys, s': Sys, t: nat, u: Uuid)
    requires Inv(s) && Replies.Answered(s, s', t, u)
    ensures Valid(s') && Measure(s') == Measure(s) + 1
  {
    hide F.Sound, FlowsOK, Tables, Parse, FrameStream, Encode;
    forall r | 0 <= r < Width(s) ensures UpQ(s', r) == UpQ(s, r) && DownQ(s', r) == if r == t then DownQ(s, t) + [AbortFrame(u)] else DownQ(s, r) {
      assert StreamOK(s, r);
      Replies.AnswerStream(s, s', t, u, r);
    }
    assert UpQs(s') == UpQs(s);
    assert DownQs(s') == DownQs(s)[t := DownQ(s, t) + [AbortFrame(u)]];
    TotalUpdate(DownQs(s), t, DownQ(s, t) + [AbortFrame(u)]);
    WeightAppend(DownQ(s, t), [AbortFrame(u)]);
    WeightOne(AbortFrame(u));
  }

  /** The controller told the selected connections with an ABORT each. */
  lemma AbortedDown(s: Sys, s': Sys, sel: Sel)
    requires Inv(s) && Replies.Aborted(s, s', sel)
    ensures Total(DownQs(s')) == Total(DownQs(s)) + Hits(s.ctrl.conns, sel) && Total(UpQs(s')) == Total(UpQs(s))
  {
    hide F.Sound, FlowsOK, Parse, FrameStream, Encode, Hit, Lawful, Addressed, Total;
    forall r | 0 <= r < Width(s)
      ensures UpQ(s', r) == UpQ(s, r) && DownQ(s', r) == DownQ(s, r) + Addressed(s.ctrl.conns, AtController, sel, STOP, ABORT, [], r)
    {
      assert StreamOK(s, r);
      Replies.AbortedStreams(s, s', sel, r);
    }
    assert UpQs(s') == UpQs(s);
    assert DownQs(s') == Aborts(DownQs(s), s.ctrl.conns, AtController, sel);
    TotalAborts(DownQs(s), s.ctrl.conns, AtController, sel);
  }

  /** The segment did. */
  lemma AbortedUp(s: Sys, s': Sys, sel: Sel)
    requires Inv(s) && Segments.Aborted(s, s', sel)
    ensures Total(UpQs(s')) == Total(UpQs(s)) + Hits(s.seg.conns, sel) && Total(DownQs(s')) == Total(DownQs(s))
  {
    hide F.Sound, FlowsOK, Parse, FrameStream, Encode, Hit, Lawful, Addressed, Total;
    forall r | 0 <= r < Width(s)
      ensures DownQ(s', r) == DownQ(s, r) && UpQ(s', r) == UpQ(s, r) + Addressed(s.seg.conns, AtSegment, sel, STOP, ABORT, [], r)
    {
      assert StreamOK(s, r);
      Segments.AbortedStreams(s, s', sel, r);
    }
    assert DownQs(s') == DownQs(s);
    assert UpQs(s') == Aborts(UpQs(s), s.seg.conns, AtSegment, sel);
    TotalAborts(UpQs(s), s.seg.conns, AtSegment, sel);
  }

  /** Latching trades connections for ABORTs, one for one. */
  lemma LatchCost(s: Sys, t: nat, u: Uuid)
    requires Inv(s)
    ensures Measure(s.(ctrl := C.Latch(s.ctrl, t, u))) <= Measure(s)
  {
    hide Tables, FlowsOK, StreamsOK, Total, Touch, Notify;
    var s', sel := s.(ctrl := C.Latch(s.ctrl, t, u)), Siblings(u, t, s.ctrl.dead);
    AbortedDown(s, s', sel);
    UnclosedAborted(s.ctrl.conns, sel, s.ctrl.now);
  }

  lemma PassedDown(s: Sys, t: nat)
    requires Inv(s) && Segments.Arrived(s, t) && G.Judge(s.seg, t, Segments.Order(s, t)).Accept?
    ensures Measure(Segments.Passed(s, t)) == Measure(Segments.Taken(s, t))
  {
    hide Tables, FlowsOK, StreamsOK, Parse, G.Judge, StateUpdate, Decode, Complete;
    var s', s1 := Segments.Passed(s, t), Segments.Taken(s, t);
    forall r | 0 <= r < Width(s) ensures DownQ(s', r) == DownQ(s1, r) && UpQ(s', r) == UpQ(s1, r) {
      Segments.PassedQueues(s, t, r);
    }
    assert UpQs(s') == UpQs(s1) && DownQs(s') == DownQs(s1);
  }

  lemma OpenedDown(s: Sys, t: nat)
    requires Inv(s) && Segments.Arrived(s, t) && Key(t, Segments.Order(s, t).eid) in s.hist
    ensures Measure(Segments.Opened(s, t)) == Measure(Segments.Taken(s, t)) + 1
  {
    hide Tables, FlowsOK, StreamsOK, Parse, G.Judge, Decode, Complete, Make;
    var s', s1 := Segments.Opened(s, t), Segments.Taken(s, t);
    forall r | 0 <= r < Width(s) ensures DownQ(s', r) == DownQ(s1, r) && UpQ(s', r) == UpQ(s1, r) {
      Segments.OpenedQueues(s, t, r);
    }
    assert UpQs(s') == UpQs(s1) && DownQs(s') == DownQs(s1);
  }

  lemma PassedUp(s: Sys, t: nat)
    requires Inv(s) && Replies.Arrived(s, t) && C.Judge(s.ctrl, t, Replies.Reply(s, t)).Accept?
    ensures Measure(Replies.Passed(s, t)) <= Measure(Replies.Taken(s, t))
  {
    hide Tables, FlowsOK, StreamsOK, Parse, C.Judge, Decode, Complete, C.MatchNode, StateUpdate;
    var s', s1 := Replies.Passed(s, t), Replies.Taken(s, t);
    forall r | 0 <= r < Width(s) ensures DownQ(s', r) == DownQ(s1, r) && UpQ(s', r) == UpQ(s1, r) {
      Replies.PassedQueues(s, t, r);
    }
    assert UpQs(s') == UpQs(s1) && DownQs(s') == DownQs(s1);
    var f := Replies.Reply(s, t);
    var i := C.MatchNode(s.ctrl.conns, t, f.eid);
    Replies.AcceptedEntry(s, t);
    StateUpdateIsLawful(s.ctrl.conns[i], f.op, f.flags, s.ctrl.now, s.ctrl.now);
    UnclosedUpdate(s.ctrl.conns, i, StateUpdate(s.ctrl.conns[i], f.op, f.flags, s.ctrl.now));
  }

  /** Receiving a frame at the segment brings the measure down. */
  lemma SegReceipt(s: Sys, t: nat)
    requires Inv(s) && Receives(s, SegNorth(t))
    ensures Measure(Next(s, SegNorth(t))) < Measure(s)
  {
    hide Tables, FlowsOK, StreamsOK, Measure, G.Connect, G.AcceptFrame, G.MatchKey, Encode, Decode, Complete, Evolves;
    TakenDown(s, t);
    match G.Judge(s.seg, t, Segments.Order(s, t)) {
      case Accept => PassedDown(s, t);
      case Open => Segments.OpenedKeeps(s, t); OpenedDown(s, t);
      case Reject =>
        Segments.UnwantedKeeps(s, t);
        Segments.OrderIsKnown(s, t);
        if !IsAbort(Segments.Order(s, t)) {
          AnswerUp(Segments.Taken(s, t), Next(s, SegNorth(t)), t, Segments.Order(s, t).eid);
        }
    }
  }

  /** Receiving a frame at the controller does, too. */
  lemma CtrlReceipt(s: Sys, t: nat)
    requires Inv(s) && Receives(s, CtrlSouth(t))
    ensures Measure(Next(s, CtrlSouth(t))) < Measure(s)
  {
    hide Tables, FlowsOK, StreamsOK, Measure, C.Latch, C.AcceptFrame, C.MatchNode, Encode, Decode, Complete, Evolves;
    TakenUp(s, t);
    match C.Judge(s.ctrl, t, Replies.Reply(s, t)) {
      case Ignore =>
      case Accept =>
        PassedUp(s, t);
        Replies.PassedKeeps(s, t);
        Replies.LatchLast(s, t);
        LatchCost(Replies.Passed(s, t), t, Replies.Reply(s, t).eid);
      case Reject =>
        Replies.RejectedFlow(s, t);
        Replies.UnwantedKeeps(s, t);
        Replies.ReplyIsKnown(s, t);
        if !IsAbort(Replies.Reply(s, t)) {
          AnswerDown(Replies.Taken(s, t), Next(s, CtrlSouth(t)), t, Replies.Reply(s, t).eid);
        }
    }
  }

  /** Moving bytes along changes nothing in flight. */
  lemma MoveCost(s: Sys, step: Step)
    requires Valid(s) && (step.FlushDown? || step.ReadDown? || step.FlushUp? || step.ReadUp?)
    ensures Measure(Next(s, step)) == Measure(s)
  {
    hide Parse, Pull;
    var s' := Next(s, step);
    if step.t < Width(s) && s' != s {
      var t := step.t;
      match step {
        case FlushDown(_, k) => Shift(s.seg.ins[t], s.downWire[t], s.ctrl.outs[t], k);
        case FlushUp(_, k) => Shift(s.ctrl.ins[t], s.upWire[t], s.seg.outs[t], k);
        case ReadDown(_, k) => Slide(s.seg.ins[t], s.downWire[t], s.ctrl.outs[t], Pull(s.seg.ins[t], s.downWire[t][..k]));
        case ReadUp(_, k) => Slide(s.ctrl.ins[t], s.upWire[t], s.seg.outs[t], Pull(s.ctrl.ins[t], s.upWire[t][..k]));
      }
    }
    assert UpQs(s') == UpQs(s) && DownQs(s') == DownQs(s);
  }

  // ---------------------------------------------------------------------------
  // Time, edges and failures

  lemma {:induction false} TotalMore(qs: seq<seq<Frame>>, q: seq<Frame>)
    ensures Total(qs + [q]) == Total(qs) + Weight(q)
  {
    assert (qs + [q])[..|qs|] == qs;
  }

  /** A new transport has nothing on it. */
  lemma TransportCost(s: Sys)
    requires Valid(s)
    ensures Measure(Next(s, NewTransport)) == Measure(s)
  {
    hide Parse, Total;
    var s', n := Next(s, NewTransport), Width(s);
    assert DownBytes(s', n) == [] && UpBytes(s', n) == [];
    NothingParses();
    forall t | 0 <= t < n ensures DownQ(s', t) == DownQ(s, t) && UpQ(s', t) == UpQ(s, t) {
      assert DownBytes(s', t) == DownBytes(s, t) && UpBytes(s', t) == UpBytes(s, t);
    }
    assert DownQs(s') == DownQs(s) + [[]] && UpQs(s') == UpQs(s) + [[]];
    TotalMore(DownQs(s), []);
    TotalMore(UpQs(s), []);
  }

  lemma EdgeCost(s: Sys, step: Step)
    requires Valid(s) && (step.Tick? || step.NewClient? || step.ClientFlush? || step.BackendFlush?)
    ensures Measure(Next(s, step)) == Measure(s)
  {
    hide Parse, Total;
    var s' := Next(s, step);
    forall t | 0 <= t < Width(s) ensures DownQ(s', t) == DownQ(s, t) && UpQ(s', t) == UpQ(s, t) {
      assert DownBytes(s', t) == DownBytes(s, t) && UpBytes(s', t) == UpBytes(s, t);
    }
    assert DownQs(s') == DownQs(s) && UpQs(s') == UpQs(s);
  }

  /** Losing a client trades its connections for ABORTs. */
  lemma ClientCost(s: Sys, n: nat)
    requires Inv(s)
    ensures Measure(s.(ctrl := C.NorthErr(s.ctrl, n))) <= Measure(s)
  {
    hide Tables, FlowsOK, StreamsOK, Total, Drop, Notify;
    var s', sel := s.(ctrl := C.NorthErr(s.ctrl, n)), ServingNorth(n, s.ctrl.dead);
    if s' != s {
      AbortedDown(s, s', sel);
      UnclosedDropped(s.ctrl.conns, OfNorth(n), sel);
    }
  }

  lemma SameQueues(s: Sys, s': Sys)
    requires Valid(s) && Valid(s') && SameBuffers(s, s')
    ensures DownQs(s') == DownQs(s) && UpQs(s') == UpQs(s)
  {
    hide Parse;
    forall t | 0 <= t < Width(s) ensures DownQ(s', t) == DownQ(s, t) && UpQ(s', t) == UpQ(s, t) {
      assert DownBytes(s', t) == DownBytes(s, t) && UpBytes(s', t) == UpBytes(s, t);
    }
  }

  /** Losing a transport, or failing to make one, sends nothing. */
  lemma LossCost(s: Sys, t: nat, n: nat)
    requires Valid(s)
    ensures Measure(s.(ctrl := C.SouthErr(s.ctrl, t))) <= Measure(s)
    ensures Measure(s.(ctrl := C.ConnectFail(s.ctrl, t, n))) <= Measure(s)
    ensures Measure(s.(seg := G.NorthErr(s.seg, t))) == Measure(s)
  {
    hide DownQs, UpQs, Total, Touch, Drop;
    SameQueues(s, s.(ctrl := C.SouthErr(s.ctrl, t)));
    SameQueues(s, s.(ctrl := C.ConnectFail(s.ctrl, t, n)));
    SameQueues(s, s.(seg := G.NorthErr(s.seg, t)));
    var orphans := Orphans(t, C.Gone(s.ctrl.clients));
    UnclosedDropped(s.ctrl.conns, orphans, orphans);
    UnclosedAborted(Drop(s.ctrl.conns, orphans), OfSouth(t), s.ctrl.now);
    UnclosedDropped(s.ctrl.conns, OfSouth(t), OfSouth(t));
  }

  /** Losing a backend trades its entries for ABORTs. */
  lemma BackendCost(s: Sys, b: nat)
    requires Inv(s)
    ensures Measure(s.(seg := G.SouthErr(s.seg, b))) <= Measure(s)
    ensures Measure(s.(seg := G.ConnectFail(s.seg, b))) <= Measure(s)
  {
    hide Tables, FlowsOK, StreamsOK, Total, Drop, Notify;
    AbortedUp(s, s.(seg := G.SouthErr(s.seg, b)), ServingSouth(b, s.seg.dead));
    FewerEntries(s.seg.conns, OfSouth(b), ServingSouth(b, s.seg.dead));
    AbortedUp(s, s.(seg := G.ConnectFail(s.seg, b)), OfSouth(b));
    FewerEntries(s.seg.conns, OfSouth(b), OfSouth(b));
  }

  lemma ControllerFailureCost(s: Sys, step: Step)
    requires Inv(s) && (step.NorthErr? || step.NorthState? || step.SouthErr? || step.ConnectFail?)
    ensures Measure(Next(s, step)) <= Measure(s)
  {
    hide Tables, FlowsOK, StreamsOK, Measure, C.NorthErr, C.SouthErr, C.ConnectFail, C.SessionState;
    match step
    case NorthErr(n) => ClientCost(s, n);
    case NorthState(n) => ClientCost(s, n);
    case SouthErr(t) => LossCost(s, t, 0);
    case ConnectFail(t, n) => LossCost(s, t, n);
  }

  lemma SegmentFailureCost(s: Sys, step: Step)
    requires Inv(s) && (step.SegNorthErr? || step.SegSouthErr? || step.SegState? || step.SegConnectFail?)
    ensures Measure(Next(s, step)) <= Measure(s)
  {
    hide Tables, FlowsOK, StreamsOK, Measure, G.NorthErr, G.SouthErr, G.ConnectFail, G.MatchSouth;
    match step
    case SegNorthErr(t) => LossCost(s, t, 0);
    case SegSouthErr(b) => BackendCost(s, b);
    case SegState(b) => BackendCost(s, b);
    case SegConnectFail(b) => BackendCost(s, b);
  }

  // ---------------------------------------------------------------------------
  // Runs

  /** The number of frames received in a run. */
  function Receipts(s: Sys, steps: seq<Step>): nat
    requires Valid(s)
    decreases steps
  {
    if steps == [] then 0 else
    (if Receives(s, steps[0]) then 1 else 0) + Receipts(Next(s, steps[0]), steps[1..])
  }

  /** With clients and backends silent, no run, however long, however interleaved and whatever fails in it, makes the
      two sides handle more frames than the measure of the state it starts from. */
  lemma {:induction false} ExchangeTerminates(s: Sys, steps: seq<Step>)
    requires Inv(s)
    requires forall i :: 0 <= i < |steps| ==> Silent(steps[i])
    ensures Receipts(s, steps) + Measure(Exec(s, steps)) <= Measure(s)
    decreases steps
  {
    hide Tables, FlowsOK, StreamsOK, Measure, Next, Receives, Evolves;
    if steps != [] {
      var step := steps[0];
      NextKeeps(s, step);
      ExchangeTerminates(Next(s, step), steps[1..]);
      SilentStep(s, step);
    }
  }

  lemma SilentStep(s: Sys, step: Step)
    requires Inv(s) && Silent(step)
    ensures Measure(Next(s, step)) + (if Receives(s, step) then 1 else 0) <= Measure(s)
  {
    hide Tables, FlowsOK, StreamsOK, Measure, Next, G.Judge, C.Judge, Receives;
    if step.SegNorth? || step.CtrlSouth? {
      ReceiptStep(s, step);
    } else {
      assert !Receives(s, step) by { OnlyReceipts(s, step); }
      if step.FlushDown? || step.ReadDown? || step.FlushUp? || step.ReadUp? {
        MoveCost(s, step);
      } else if step.NewTransport? {
        TransportCost(s);
      } else if step.Tick? || step.NewClient? || step.ClientFlush? || step.BackendFlush? {
        EdgeCost(s, step);
      } else if step.NorthErr? || step.NorthState? || step.SouthErr? || step.ConnectFail? {
        ControllerFailureCost(s, step);
      } else {
        SegmentFailureCost(s, step);
      }
    }
  }

  lemma OnlyReceipts(s: Sys, step: Step)
    requires Valid(s) && !step.SegNorth? && !step.CtrlSouth?
    ensures !Receives(s, step)
  {
  }

  lemma ReceiptStep(s: Sys, step: Step)
    requires Inv(s) && (step.SegNorth? || step.CtrlSouth?)
    ensures Measure(Next(s, step)) + (if Receives(s, step) then 1 else 0) <= Measure(s)
  {
    hide Tables, FlowsOK, StreamsOK, Measure, G.NorthRoute, C.SouthRoute, Encode, Decode, Complete, G.Judge, C.Judge;
    if Receives(s, step) {
      match step {
        case SegNorth(t) => SegReceipt(s, t);
        case CtrlSouth(t) => CtrlReceipt(s, t);
      }
    }
  }
}
