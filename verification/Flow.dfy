/** One connection seen on its own.

    A `Flow` is everything in the system that concerns one connection: the client, the
    controller's entry, the frames in flight either way that carry its UUID, the segment's
    entry and the backend.  `Sound` says what is true of it at every moment; the lemmas show
    that each thing that can happen to a connection keeps it. */
module Flow {
  import opened Frames
  import opened Connections

  datatype Flow = Flow(
    // the client and the controller
    conn: Option<State>, nAlive: bool, tAlive: bool, eof: bool,
    since: seq<byte>, pend: seq<byte>, sent: seq<byte>, down: seq<Frame>,
    // the segment and the backend
    sconn: Option<State>, made: bool, delivered: seq<byte>,
    bRead: seq<byte>, bPend: seq<byte>, bEof: bool, framed: seq<byte>, up: seq<Frame>,
    // and back at the client
    got: seq<byte>)

  /** The controller still speaks for the client on this connection. */
  predicate Serving(f: Flow) {
    f.conn.Some? && f.conn.value != CLOSED && f.nAlive && f.tAlive
  }

  /** The controller still passes replies on this connection to the client. */
  predicate Listening(f: Flow) {
    f.conn.Some? && f.conn.value != CLOSED && f.nAlive
  }

  /** The segment still passes payload on this connection to the backend. */
  predicate Feeding(f: Flow) {
    f.sconn.Some? && f.sconn.value != CLOSED
  }

  predicate NoInit(q: seq<Frame>) {
    forall i :: 0 <= i < |q| ==> !IsInit(q[i])
  }

  predicate AllEmpty(q: seq<Frame>) {
    forall i :: 0 <= i < |q| ==> q[i].payload == []
  }

  /** The session's first frame has not been handled by the segment yet. */
  predicate Opening(f: Flow) {
    && |f.down| > 0 && IsInit(f.down[0]) && NoInit(f.down[1..])
    && f.sconn.None? && !f.made
    && Payload(f.down) == f.sent
  }

  predicate Opened(f: Flow) {
    NoInit(f.down) && (Feeding(f) ==> f.delivered + Payload(f.down) == f.sent)
  }

  /** Towards the backend: nothing is lost, repeated or reordered while the connection lasts,
      and what was delivered stays a prefix of what was read after it ends. */
  predicate SoundDown(f: Flow) {
    && f.sent <= f.since
    && (Serving(f) ==> f.sent + f.pend == f.since)
    && f.delivered <= f.sent
    && (Opening(f) || Opened(f))
    && (!f.made ==> f.sconn.None? && f.delivered == [])
  }

  /** A segment that has said STOP has nothing more to say. */
  predicate StopIsFinal(f: Flow) {
    && (forall i, j :: 0 <= i < j < |f.up| && IsStop(f.up[i]) && !IsAbort(f.up[i]) ==> f.up[j].payload == [])
    && (forall i :: 0 <= i < |f.up| && IsStop(f.up[i]) && !IsAbort(f.up[i]) ==> f.bEof && f.bPend == [])
    && (f.conn == Some(HALF_CLOSED) && f.nAlive && !f.eof ==> f.bEof && f.bPend == [] && AllEmpty(f.up))
  }

  /** Towards the client, the same. */
  predicate SoundUp(f: Flow) {
    && f.framed <= f.bRead
    && (f.sconn.Some? ==> f.framed + f.bPend == f.bRead)
    && f.got <= f.framed
    && (Listening(f) ==> f.got + Payload(f.up) == f.framed)
    && StopIsFinal(f)
    && (!f.made ==> f.framed == [] && f.bRead == [] && f.bPend == [] && !f.bEof)
  }

  predicate Sound(f: Flow) {
    SoundDown(f) && SoundUp(f)
  }

  /** What time does to a connection: states advance and entries are forgotten, never the other
      way; byte streams only grow, and not at all once nobody speaks or listens for them. */
  predicate Later(f: Flow, f': Flow) {
    && (f'.conn.Some? ==> f.conn.Some? && f.conn.value <= f'.conn.value)
    && (f'.nAlive ==> f.nAlive) && (f'.tAlive ==> f.tAlive)
    && f.since <= f'.since
    && f.sent <= f'.sent && (!Serving(f) ==> f'.sent == f.sent)
    && f.got <= f'.got && (!Listening(f) ==> f'.got == f.got)
    && f.delivered <= f'.delivered && f.framed <= f'.framed
    && (f.made ==> f'.made && (f'.sconn.Some? ==> f.sconn.Some? && f.sconn.value <= f'.sconn.value))
  }

  predicate Keeps(f: Flow, f': Flow) {
    Sound(f') && Later(f, f')
  }

  lemma KeepsSelf(f: Flow)
    requires Sound(f)
    ensures Keeps(f, f)
  {
  }

  lemma LaterTransitive(f: Flow, g: Flow, h: Flow)
    requires Later(f, g) && Later(g, h)
    ensures Later(f, h)
  {
  }

  // ---------------------------------------------------------------------------
  // Queue facts

  lemma PayloadPush(q: seq<Frame>, x: Frame)
    ensures Payload(q + [x]) == Payload(q) + x.payload
  {
    PayloadAppend(q, [x]);
    assert Payload([x]) == x.payload;
  }

  lemma PayloadPop(q: seq<Frame>)
    requires q != []
    ensures Payload(q) == q[0].payload + Payload(q[1..])
  {
  }

  lemma PrefixGrows(a: seq<byte>, b: seq<byte>, c: seq<byte>)
    requires a <= b
    ensures a <= b + c
  {
  }

  lemma Assoc(a: seq<byte>, b: seq<byte>, c: seq<byte>)
    ensures a + (b + c) == (a + b) + c
  {
  }

  // ---------------------------------------------------------------------------
  // At the controller, from the client

  lemma ClientReadKeeps(f: Flow, chunk: seq<byte>, eof: bool)
    requires Sound(f) && f.pend == [] && !f.eof
    ensures Keeps(f, f.(since := f.since + chunk, pend := chunk, eof := eof))
  {
    PrefixGrows(f.sent, f.since, chunk);
    assert f.sent + [] == f.sent;
  }

  /** The client's chunk is framed to this connection. */
  lemma FanOutKeeps(f: Flow, x: Frame)
    requires Sound(f) && Serving(f)
    requires x.op == (if f.eof then STOP else DATA) && x.flags == 0 && x.payload == f.pend
    ensures Keeps(f, f.(conn := Some(NextState(f.conn.value, x.op, 0)), sent := f.sent + f.pend, down := f.down + [x], pend := []))
  {
    PayloadPush(f.down, x);
    PrefixGrows(f.delivered, f.sent, f.pend);
    Assoc(f.delivered, Payload(f.down), f.pend);
    assert (f.sent + f.pend) + [] == f.since;
    if Opening(f) {
      assert (f.down + [x])[1..] == f.down[1..] + [x];
    }
  }

  /** The client's chunk is framed, but not to this connection. */
  lemma PassedOverKeeps(f: Flow)
    requires Sound(f) && !Serving(f)
    ensures Keeps(f, f.(pend := []))
  {
  }

  /** A connection as `_north_connect` leaves it, its first frame written or refused. */
  lemma ConnectIsSound(chunk: seq<byte>, x: Frame, refused: bool)
    requires IsInit(x) && x.payload == chunk
    ensures Sound(Flow(Some(HALF_OPEN), true, true, false, chunk, if refused then chunk else [], if refused then [] else chunk,
                       if refused then [] else [x], None, false, [], [], [], false, [], [], []))
  {
    PayloadPush([], x);
    assert [] + [x] == [x];
    assert [] + chunk == chunk && chunk + [] == chunk;
  }

  /** The controller closes or forgets the connection, or loses a stream, perhaps aborting. */
  lemma ControllerQuitKeeps(f: Flow, f': Flow)
    requires Sound(f)
    requires f' == f.(conn := f'.conn, nAlive := f'.nAlive, tAlive := f'.tAlive, down := f'.down)
    requires f'.conn == f.conn || f'.conn == None || (f.conn.Some? && f'.conn == Some(CLOSED))
    requires (f'.nAlive ==> f.nAlive) && (f'.tAlive ==> f.tAlive)
    requires f'.down == f.down || exists u :: f'.down == f.down + [AbortFrame(u)]
    ensures Keeps(f, f')
  {
    if f'.down != f.down {
      var u :| f'.down == f.down + [AbortFrame(u)];
      PayloadPush(f.down, AbortFrame(u));
      assert Payload(f.down) + [] == Payload(f.down);
      if Opening(f) {
        assert f'.down[1..] == f.down[1..] + [AbortFrame(u)];
      }
    }
  }

  // ---------------------------------------------------------------------------
  // At the segment, from the controller

  lemma AcceptDownKeeps(f: Flow)
    requires Sound(f) && Feeding(f) && f.down != []
    ensures var x := f.down[0];
      Keeps(f, f.(down := f.down[1..], delivered := f.delivered + x.payload, sconn := Some(NextState(f.sconn.value, x.op, x.flags))))
  {
    PayloadPop(f.down);
    Assoc(f.delivered, f.down[0].payload, Payload(f.down[1..]));
  }

  /** The frame that opens the session makes the backend's stream. */
  lemma OpenKeeps(f: Flow, state: State)
    requires Sound(f) && !Feeding(f) && f.down != [] && IsInit(f.down[0])
    ensures !f.made
    ensures state != CLOSED ==>
      Keeps(f, f.(down := f.down[1..], sconn := Some(state), made := true, delivered := f.down[0].payload))
  {
    PayloadPop(f.down);
    assert f.framed + [] == f.framed;
  }

  lemma StrayDownKeeps(f: Flow)
    requires Sound(f) && !Feeding(f) && f.down != []
    ensures Keeps(f, f.(down := f.down[1..]))
  {
  }

  // ---------------------------------------------------------------------------
  // At the segment, from the backend

  lemma BackendReadKeeps(f: Flow, chunk: seq<byte>, eof: bool)
    requires Sound(f) && f.made && f.bPend == [] && !f.bEof
    ensures Keeps(f, f.(bRead := f.bRead + chunk, bPend := chunk, bEof := eof))
  {
    PrefixGrows(f.framed, f.bRead, chunk);
    assert f.framed + [] == f.framed;
  }

  /** The backend's chunk, or its end of file, is framed. */
  lemma SegSendKeeps(f: Flow, x: Frame)
    requires Sound(f) && f.sconn.Some?
    requires x.op == (if f.bEof then STOP else DATA) && x.flags == 0 && x.payload == f.bPend
    ensures Keeps(f, f.(up := f.up + [x], framed := f.framed + f.bPend, bPend := []))
  {
    PayloadPush(f.up, x);
    PrefixGrows(f.got, f.framed, f.bPend);
    Assoc(f.got, Payload(f.up), f.bPend);
    assert (f.framed + f.bPend) + [] == f.bRead;
  }

  /** The segment closes or forgets the connection, perhaps aborting. */
  lemma SegmentQuitKeeps(f: Flow, f': Flow)
    requires Sound(f)
    requires f' == f.(sconn := f'.sconn, up := f'.up)
    requires f'.sconn == None || (f'.sconn.Some? && f.sconn.Some? && f.sconn.value <= f'.sconn.value)
    requires f'.up == f.up || exists u :: f'.up == f.up + [AbortFrame(u)]
    ensures Keeps(f, f')
  {
    if f'.up != f.up {
      var u :| f'.up == f.up + [AbortFrame(u)];
      PayloadPush(f.up, AbortFrame(u));
      assert f.got + (Payload(f.up) + []) == f.got + Payload(f.up);
    }
  }

  // ---------------------------------------------------------------------------
  // Back at the controller

  lemma AcceptUpKeeps(f: Flow)
    requires Sound(f) && Listening(f) && f.up != []
    requires f.conn.value == HALF_CLOSED && !f.eof ==> IsAbort(f.up[0])
    ensures var x := f.up[0];
      Keeps(f, f.(up := f.up[1..], got := f.got + x.payload, conn := Some(NextState(f.conn.value, x.op, x.flags))))
  {
    PayloadPop(f.up);
    Assoc(f.got, f.up[0].payload, Payload(f.up[1..]));
  }

  /** A frame the controller does not pass on: the connection is closed or forgotten, its client
      is gone, or the segment had already said STOP, so that the frame carries nothing. */
  lemma RejectUpKeeps(f: Flow)
    requires Sound(f) && f.up != []
    requires Listening(f) ==> f.conn.value == HALF_CLOSED && !f.eof
    ensures Keeps(f, f.(up := f.up[1..]))
  {
    PayloadPop(f.up);
    assert f.got + ([] + Payload(f.up[1..])) == f.got + Payload(f.up[1..]);
  }
}
