/** The segment process as a value, and its handlers as functions on that value. */
module Segment {
  import opened Frames
  import opened Connections

  /** A backend (southbound) stream, made for the connection `key`.  `read` and `pend` are as for a
      client; `written` is everything written to it, of which the last `unsent` bytes are still held. */
  datatype Backend = Backend(key: Key, eof: bool, read: seq<byte>, pend: seq<byte>, written: seq<byte>, unsent: nat, bad: bool)

  datatype Seg = Seg(conns: seq<Conn>, backends: seq<Backend>,
                     outs: seq<seq<byte>>, ins: seq<seq<byte>>, dead: set<nat>, now: int)

  predicate Valid(g: Seg) {
    && |g.outs| == |g.ins|
    && forall i :: 0 <= i < |g.conns| ==> g.conns[i].north < |g.outs| && g.conns[i].south < |g.backends|
  }

  // ---------------------------------------------------------------------------
  // Bus to backend

  function MatchKey(conns: seq<Conn>, k: Key): (i: nat)
    ensures i <= |conns|
    ensures i < |conns| ==> KeyOf(AtSegment, conns[i]) == k
    ensures forall j :: 0 <= j < i ==> KeyOf(AtSegment, conns[j]) != k
  {
    if conns == [] then 0
    else if KeyOf(AtSegment, conns[0]) == k then 0
    else 1 + MatchKey(conns[1..], k)
  }

  datatype Verdict = Open | Reject | Block | Accept

  /** What `_route` does with a complete frame from the bus. */
  function Judge(g: Seg, t: nat, f: Frame): (v: Verdict)
    requires Valid(g)
    ensures v.Accept? ==> MatchKey(g.conns, Key(t, f.eid)) < |g.conns|
  {
    var i := MatchKey(g.conns, Key(t, f.eid));
    if i == |g.conns| || g.conns[i].state == CLOSED then
      (if IsInit(f) && f.payload != [] then Open else Reject)
    else if f.payload != [] && g.backends[g.conns[i].south].unsent >= MAX_BUFSIZE - |f.payload| then Block
    else Accept
  }

  /** `_north_connect`: a new backend stream, and the frame's payload is its first input. */
  function Connect(g: Seg, t: nat, f: Frame): (g': Seg)
    requires Valid(g) && t < |g.outs|
    ensures Valid(g')
  {
    var state := if f.op == STOP then HALF_CLOSED else HALF_OPEN;
    g.(conns := g.conns + [Make(f.eid, t, |g.backends|, state, g.now)],
       backends := g.backends + [Backend(Key(t, f.eid), false, [], [], f.payload, |f.payload|, false)])
  }

  function AcceptFrame(g: Seg, t: nat, f: Frame): (g': Seg)
    requires Valid(g) && Judge(g, t, f).Accept?
    ensures Valid(g')
  {
    var i := MatchKey(g.conns, Key(t, f.eid));
    var b := g.backends[g.conns[i].south];
    g.(conns := g.conns[i := StateUpdate(g.conns[i], f.op, f.flags, g.now)],
       backends := g.backends[g.conns[i].south :=
         b.(written := b.written + f.payload, unsent := b.unsent + |f.payload|, bad := b.bad || IsAbort(f))])
  }

  /** A frame for no open connection, that opens none, is answered with an ABORT unless it is one. */
  function Stray(g: Seg, t: nat, f: Frame): (g': Seg)
    requires Valid(g) && t < |g.outs|
    ensures Valid(g')
  {
    if IsAbort(f) then g else g.(outs := g.outs[t := g.outs[t] + Encode(AbortFrame(f.eid))])
  }

  function NorthRoute(g: Seg, t: nat, f: Frame): (g': Seg)
    requires Valid(g) && t < |g.outs|
    ensures Valid(g')
  {
    match Judge(g, t, f)
    case Open => Connect(g, t, f)
    case Reject => Stray(g, t, f)
    case Block => g
    case Accept => AcceptFrame(g, t, f)
  }

  // ---------------------------------------------------------------------------
  // Backend to bus

  function BackendRead(g: Seg, b: nat, chunk: seq<byte>, eof: bool): (g': Seg)
    requires Valid(g)
    ensures Valid(g')
  {
    if b < |g.backends| && !g.backends[b].eof && g.backends[b].pend == [] && |chunk| <= MAX_PAYLOAD then
      var bk := g.backends[b];
      g.(backends := g.backends[b := bk.(read := bk.read + chunk, pend := chunk, eof := eof)])
    else g
  }

  /** The first connection of backend `b` whose transport is alive. */
  function MatchSouth(conns: seq<Conn>, b: nat, dead: set<nat>): (i: nat)
    ensures i <= |conns|
    ensures i < |conns| ==> conns[i].south == b && conns[i].north !in dead
    ensures forall j :: 0 <= j < i ==> !(conns[j].south == b && conns[j].north !in dead)
  {
    if conns == [] then 0
    else if conns[0].south == b && conns[0].north !in dead then 0
    else 1 + MatchSouth(conns[1..], b, dead)
  }

  predicate HasNews(bk: Backend) {
    bk.eof || bk.pend != []
  }

  /** The backend's connection, if it has one and there is room on its transport for what it has to say. */
  predicate Blocked(g: Seg, b: nat)
    requires Valid(g)
  {
    var i := MatchSouth(g.conns, b, g.dead);
    b < |g.backends| && i < |g.conns| && HasNews(g.backends[b])
      && |g.outs[g.conns[i].north]| > MAX_BUFSIZE - (HDRLEN + |g.backends[b].pend|)
  }

  /** A chunk or an end of file of backend `b` is about to be framed. */
  predicate Speaks(g: Seg, b: nat)
    requires Valid(g)
  {
    b < |g.backends| && MatchSouth(g.conns, b, g.dead) < |g.conns| && HasNews(g.backends[b]) && !Blocked(g, b)
  }

  function SendFrame(g: Seg, b: nat): (g': Seg)
    requires Valid(g) && Speaks(g, b)
    ensures Valid(g')
  {
    var x := g.conns[MatchSouth(g.conns, b, g.dead)];
    var bk := g.backends[b];
    var op := if bk.eof then STOP else DATA;
    g.(outs := g.outs[x.north := g.outs[x.north] + Encode(Frame(x.uuid, op, 0, bk.pend))],
       backends := g.backends[b := bk.(pend := [])])
  }

  /** The state change that follows, and the teardown when it closes the connection. */
  function Advance(g: Seg, b: nat): (g': Seg)
    requires Valid(g) && b < |g.backends|
    ensures Valid(g')
  {
    var i := MatchSouth(g.conns, b, g.dead);
    if i == |g.conns| then g else
    var x := StateUpdate(g.conns[i], if g.backends[b].eof then STOP else DATA, 0, g.now);
    var g' := g.(conns := g.conns[i := x]);
    if x.state == CLOSED then SouthErr(g', b) else g'
  }

  /** `_route` from a backend to the bus. */
  function SouthRoute(g: Seg, b: nat): (g': Seg)
    requires Valid(g)
    ensures Valid(g')
  {
    if b >= |g.backends| || Blocked(g, b) then g
    else if MatchSouth(g.conns, b, g.dead) == |g.conns| then (if g.backends[b].pend != [] then SouthErr(g, b) else g)
    else if Speaks(g, b) then Advance(SendFrame(g, b), b)
    else Advance(g, b)
  }

  // ---------------------------------------------------------------------------
  // Teardown

  /** `_south_err_handler`: abort what is still open, forget the backend's connection. */
  function SouthErr(g: Seg, b: nat): (g': Seg)
    requires Valid(g)
    ensures Valid(g')
  {
    g.(conns := Drop(g.conns, OfSouth(b)),
       outs := Notify(g.outs, g.conns, AtSegment, ServingSouth(b, g.dead), STOP, ABORT, []))
  }

  /** `erase_connect`: the backend could not be connected; the ABORT goes out whatever the state. */
  function ConnectFail(g: Seg, b: nat): (g': Seg)
    requires Valid(g)
    ensures Valid(g')
  {
    g.(conns := Drop(g.conns, OfSouth(b)),
       outs := Notify(g.outs, g.conns, AtSegment, OfSouth(b), STOP, ABORT, []))
  }

  /** `_north_err_handler`: the transport is gone; its connections count as aborted. */
  function NorthErr(g: Seg, t: nat): (g': Seg)
    requires Valid(g)
    ensures Valid(g')
  {
    g.(conns := Touch(g.conns, OfNorth(t), STOP, ABORT, g.now), dead := g.dead + {t})
  }

  /** `_south_state_handler`: a CLOSED connection takes its backend down. */
  function StateHandler(g: Seg, b: nat): (g': Seg)
    requires Valid(g)
    ensures Valid(g')
  {
    var i := MatchSouth(g.conns, b, {});
    if i < |g.conns| && g.conns[i].state == CLOSED then SouthErr(g, b) else g
  }

  function BackendFlush(g: Seg, b: nat, k: nat): (g': Seg)
    requires Valid(g)
    ensures Valid(g')
  {
    if b < |g.backends| && k <= g.backends[b].unsent then
      g.(backends := g.backends[b := g.backends[b].(unsent := g.backends[b].unsent - k)])
    else g
  }
}
