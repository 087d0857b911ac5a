/** The controller process as a value, and its handlers as functions on that value.

    `ControllerConnector` (another file) is the imperative form of the same
    handlers; its methods are proved against the functions here. */
module Controller {
  import opened Frames
  import opened Connections

  datatype Mode = HALF_DUPLEX | FULL_DUPLEX

  /** A stretch of bytes written to a client, with the connection it came from. */
  datatype Piece = Piece(from: Key, bytes: seq<byte>)

  /** A client (northbound) stream.  `read` is everything read from it, `pend` the
      chunk in the marshaller that is not framed yet, `log` everything written to
      it, of which the last `unsent` bytes have not reached the kernel. */
  datatype Client = Client(alive: bool, eof: bool, read: seq<byte>, pend: seq<byte>, log: seq<Piece>, unsent: nat)

  /** `outs[t]` are the bytes pending on transport `t`, `ins[t]` its reassembly buffer,
      `dead` the transports that have been torn down. */
  datatype Ctrl = Ctrl(mode: Mode, conns: seq<Conn>, clients: seq<Client>,
                       outs: seq<seq<byte>>, ins: seq<seq<byte>>, dead: set<nat>, now: int)

  predicate Valid(c: Ctrl) {
    && |c.outs| == |c.ins|
    && forall i :: 0 <= i < |c.conns| ==> c.conns[i].south < |c.outs| && c.conns[i].north < |c.clients|
  }

  /** Streams whose weak pointers no longer lock. */
  function Gone(clients: seq<Client>): set<nat> {
    set n | 0 <= n < |clients| && !clients[n].alive
  }

  // ---------------------------------------------------------------------------
  // Client to bus

  /** `stream_copy` into an empty marshaller buffer: at most one frame's worth, and maybe end of file. */
  function ClientRead(c: Ctrl, n: nat, chunk: seq<byte>, eof: bool): (c': Ctrl)
    requires Valid(c)
    ensures Valid(c')
  {
    if n < |c.clients| && c.clients[n].alive && !c.clients[n].eof && c.clients[n].pend == [] && |chunk| <= MAX_PAYLOAD then
      var cl := c.clients[n];
      c.(clients := c.clients[n := cl.(read := cl.read + chunk, pend := chunk, eof := eof)])
    else c
  }

  /** `write_prepare` finds a stream without room for `p` more payload bytes and a header. */
  predicate Refuses(conns: seq<Conn>, outs: seq<seq<byte>>, n: nat, dead: set<nat>, p: nat)
    requires forall i :: 0 <= i < |conns| ==> conns[i].south < |outs|
  {
    exists i :: 0 <= i < |conns| && conns[i].north == n && conns[i].south !in dead
      && |outs[conns[i].south]| > MAX_BUFSIZE - (p + HDRLEN)
  }

  predicate Connected(conns: seq<Conn>, n: nat, dead: set<nat>) {
    exists i :: 0 <= i < |conns| && conns[i].north == n && conns[i].south !in dead
  }

  predicate AnyHit(conns: seq<Conn>, sel: Sel) {
    exists i :: 0 <= i < |conns| && Hit(sel, conns[i])
  }

  /** The route handler has something to say: a chunk, or end of file. */
  predicate HasNews(cl: Client) {
    cl.alive && (cl.eof || cl.pend != [])
  }

  /** A chunk or an end of file is about to be framed to the client's connections. */
  predicate Speaks(c: Ctrl, n: nat)
    requires Valid(c)
  {
    n < |c.clients| && HasNews(c.clients[n]) && !Refuses(c.conns, c.outs, n, c.dead, |c.clients[n].pend|)
  }

  predicate Connects(c: Ctrl, n: nat)
    requires Valid(c)
  {
    Speaks(c, n) && !c.clients[n].eof && !Connected(c.conns, n, c.dead)
  }

  function FanOut(c: Ctrl, n: nat): (c': Ctrl)
    requires Valid(c) && Speaks(c, n)
    ensures Valid(c')
  {
    var cl := c.clients[n];
    var op := if cl.eof then STOP else DATA;
    var sel := ServingNorth(n, c.dead);
    c.(conns := Touch(c.conns, sel, op, 0, c.now),
       outs := Notify(c.outs, c.conns, AtController, sel, op, 0, cl.pend),
       clients := if AnyHit(c.conns, sel) then c.clients[n := cl.(pend := [])] else c.clients)
  }

  /** The step of the clock sequence between two connections of a full-duplex session. */
  function Bump(u: Uuid): Uuid {
    if u[8] % 64 == 63 then u[8 := u[8] - 63] else u[8 := u[8] + 1]
  }

  function BumpBy(u: Uuid, k: nat): Uuid {
    if k == 0 then u else Bump(BumpBy(u, k - 1))
  }

  function UuidAt(mode: Mode, u: Uuid, i: nat): Uuid {
    if mode.FULL_DUPLEX? then BumpBy(u, i + 1) else u
  }

  /** One connection per backend, over the transports `ts` that were selected. */
  function NewConns(mode: Mode, u: Uuid, n: nat, ts: seq<nat>, now: int): (r: seq<Conn>)
    ensures |r| == |ts|
    ensures forall i :: 0 <= i < |ts| ==> r[i] == Make(UuidAt(mode, u, i), n, ts[i], HALF_OPEN, now)
  {
    seq(|ts|, i requires 0 <= i < |ts| => Make(UuidAt(mode, u, i), n, ts[i], HALF_OPEN, now))
  }

  /** `_north_connect`: the connections are entered in the table even when the first frame is refused. */
  function Connect(c: Ctrl, n: nat, ts: seq<nat>, u: Uuid): (c': Ctrl)
    requires Valid(c) && n < |c.clients|
    requires forall i :: 0 <= i < |ts| ==> ts[i] < |c.outs|
    ensures Valid(c')
  {
    var cl := c.clients[n];
    var made := NewConns(c.mode, u, n, ts, c.now);
    if Refuses(made, c.outs, n, c.dead, |cl.pend|) then
      c.(conns := c.conns + made)
    else
      c.(conns := c.conns + made,
         outs := Notify(c.outs, made, AtController, Everyone, DATA, INIT, cl.pend),
         clients := c.clients[n := cl.(pend := [])])
  }

  /** `_route` from a client to the bus. */
  function NorthRoute(c: Ctrl, n: nat, ts: seq<nat>, u: Uuid): (c': Ctrl)
    requires Valid(c)
    requires forall i :: 0 <= i < |ts| ==> ts[i] < |c.outs|
    ensures Valid(c')
  {
    if !Speaks(c, n) then c
    else if Connects(c, n) then Connect(FanOut(c, n), n, ts, u)
    else FanOut(c, n)
  }

  // ---------------------------------------------------------------------------
  // Bus to client

  /** The first connection on transport `t` whose UUID has the frame's node bytes. */
  function MatchNode(conns: seq<Conn>, t: nat, u: Uuid): (i: nat)
    ensures i <= |conns|
    ensures i < |conns| ==> conns[i].south == t && Node(conns[i].uuid) == Node(u)
    ensures forall j :: 0 <= j < i ==> !(conns[j].south == t && Node(conns[j].uuid) == Node(u))
  {
    if conns == [] then 0
    else if conns[0].south == t && Node(conns[0].uuid) == Node(u) then 0
    else 1 + MatchNode(conns[1..], t, u)
  }

  /** A frame nobody accepts is answered with an ABORT, unless it is one. */
  function Stray(c: Ctrl, t: nat, f: Frame): (c': Ctrl)
    requires Valid(c) && t < |c.outs|
    ensures Valid(c')
  {
    if IsAbort(f) then c else c.(outs := c.outs[t := c.outs[t] + Encode(AbortFrame(f.eid))])
  }

  function Deliver(cl: Client, k: Key, data: seq<byte>): Client {
    if data == [] then cl else cl.(log := cl.log + [Piece(k, data)], unsent := cl.unsent + |data|)
  }

  /** What `_route` does with a complete frame from the bus. */
  datatype Verdict = Reject | Ignore | Block | Accept

  function Judge(c: Ctrl, t: nat, f: Frame): (v: Verdict)
    requires Valid(c)
    ensures v.Accept? ==> MatchNode(c.conns, t, f.eid) < |c.conns|
  {
    var i := MatchNode(c.conns, t, f.eid);
    if i == |c.conns| || c.conns[i].state == CLOSED then Reject else
    var cl := c.clients[c.conns[i].north];
    if !cl.alive then Ignore
    else if c.conns[i].state == HALF_CLOSED && !cl.eof && !IsAbort(f) then Reject
    else if f.payload != [] && cl.unsent >= MAX_BUFSIZE - |f.payload| then Block
    else Accept
  }

  /** The first reply with data, in half-duplex mode, to a connection that is still HALF_OPEN. */
  predicate Latches(mode: Mode, x: Conn, f: Frame) {
    mode.HALF_DUPLEX? && x.state == HALF_OPEN && f.payload != []
  }

  function Latch(c: Ctrl, t: nat, u: Uuid): (c': Ctrl)
    requires Valid(c)
    ensures Valid(c')
  {
    var sel := Siblings(u, t, c.dead);
    c.(conns := Touch(c.conns, sel, STOP, ABORT, c.now),
       outs := Notify(c.outs, c.conns, AtController, sel, STOP, ABORT, []))
  }

  function AcceptFrame(c: Ctrl, t: nat, f: Frame): (c': Ctrl)
    requires Valid(c) && Judge(c, t, f).Accept?
    ensures Valid(c')
  {
    var i := MatchNode(c.conns, t, f.eid);
    var x := c.conns[i];
    c.(conns := c.conns[i := StateUpdate(x, f.op, f.flags, c.now)],
       clients := c.clients[x.north := Deliver(c.clients[x.north], KeyOf(AtController, x), f.payload)])
  }

  /** `_route` from the bus to a client; a blocked frame changes nothing and is retried. */
  function SouthRoute(c: Ctrl, t: nat, f: Frame): (c': Ctrl)
    requires Valid(c) && t < |c.outs|
    ensures Valid(c')
  {
    match Judge(c, t, f)
    case Reject => Stray(c, t, f)
    case Ignore => c
    case Block => c
    case Accept =>
      var x := c.conns[MatchNode(c.conns, t, f.eid)];
      if Latches(c.mode, x, f) then Latch(AcceptFrame(c, t, f), t, f.eid) else AcceptFrame(c, t, f)
  }

  // ---------------------------------------------------------------------------
  // Teardown

  /** `_north_err_handler`: abort what is still open, forget the client's connections. */
  function NorthErr(c: Ctrl, n: nat): (c': Ctrl)
    requires Valid(c)
    ensures Valid(c')
  {
    if n < |c.clients| && c.clients[n].alive then
      c.(conns := Drop(c.conns, OfNorth(n)),
         outs := Notify(c.outs, c.conns, AtController, ServingNorth(n, c.dead), STOP, ABORT, []),
         clients := c.clients[n := c.clients[n].(alive := false)])
    else c
  }

  /** `_south_err_handler`: the transport is gone; its connections count as aborted. */
  function SouthErr(c: Ctrl, t: nat): (c': Ctrl)
    requires Valid(c)
    ensures Valid(c')
  {
    var orphans := Orphans(t, Gone(c.clients));
    c.(conns := Touch(Drop(c.conns, orphans), OfSouth(t), STOP, ABORT, c.now), dead := c.dead + {t})
  }

  /** `erase_connect`: transport `t` could not be connected on behalf of client `n`. */
  function ConnectFail(c: Ctrl, t: nat, n: nat): (c': Ctrl)
    requires Valid(c)
    ensures Valid(c')
  {
    if n < |c.clients| then
      c.(conns := Drop(c.conns, OfSouth(t)), clients := c.clients[n := c.clients[n].(alive := false)])
    else c
  }

  /** `session_state`: OPEN if any connection is, else the least advanced state; CLOSED if there is none. */
  function SessionState(conns: seq<Conn>, n: nat): State {
    if conns == [] then CLOSED else
    var c := conns[|conns| - 1];
    var before := SessionState(conns[..|conns| - 1], n);
    if c.north != n then before
    else if c.state == OPEN then OPEN
    else if before == OPEN then OPEN
    else if c.state < before then c.state else before
  }

  /** `_north_state_handler`, the part that changes the table. */
  function StateHandler(c: Ctrl, n: nat): (c': Ctrl)
    requires Valid(c)
    ensures Valid(c')
  {
    if SessionState(c.conns, n) == CLOSED then NorthErr(c, n) else c
  }

  /** The state handler tears a client down exactly when every one of its connections is CLOSED. */
  lemma {:induction false} SessionStateMeaning(conns: seq<Conn>, n: nat)
    ensures SessionState(conns, n) == CLOSED <==> forall c :: c in conns && c.north == n ==> c.state == CLOSED
    ensures SessionState(conns, n) == OPEN <==> exists c :: c in conns && c.north == n && c.state == OPEN
    ensures SessionState(conns, n) != OPEN ==> forall c :: c in conns && c.north == n ==> SessionState(conns, n) <= c.state
    ensures SessionState(conns, n) != CLOSED ==> exists c :: c in conns && c.north == n && c.state == SessionState(conns, n)
  {
    if conns != [] {
      var front, last := conns[..|conns| - 1], conns[|conns| - 1];
      SessionStateMeaning(front, n);
      assert conns == front + [last];
      assert forall c :: c in conns <==> c in front || c == last;
    }
  }

  // ---------------------------------------------------------------------------
  // Transport input and output, clients and time

  /** The kernel takes the first `k` bytes pending on a client stream. */
  function ClientFlush(c: Ctrl, n: nat, k: nat): (c': Ctrl)
    requires Valid(c)
    ensures Valid(c')
  {
    if n < |c.clients| && k <= c.clients[n].unsent then
      c.(clients := c.clients[n := c.clients[n].(unsent := c.clients[n].unsent - k)])
    else c
  }

  function NewClient(c: Ctrl): (c': Ctrl)
    requires Valid(c)
    ensures Valid(c')
  {
    c.(clients := c.clients + [Client(true, false, [], [], [], 0)])
  }
}
