/** The connection table that the controller and the segment share in shape:
    connection states, their timestamps, and the few ways the handlers' loops
    walk the table (select, notify, update, drop). */
module Connections {
  import opened Frames

  /** 256 MiB, the most a stream may hold back. */
  const MAX_BUFSIZE: nat := 65536 * 4096

  datatype Option<+T> = None | Some(value: T)

  /** `enum states {HALF_OPEN, OPEN, HALF_CLOSED, CLOSED}`, incremented as integers. */
  type State = n: nat | n <= 3
  const HALF_OPEN: State := 0
  const OPEN: State := 1
  const HALF_CLOSED: State := 2
  const CLOSED: State := 3

  type Times = ts: seq<int> | |ts| == 4 witness [0, 0, 0, 0]

  /** One entry of `connections()`.  `north` and `south` are stream identities;
      `closings` counts how often the connection came to CLOSED, which the controller records as a completion. */
  datatype Conn = Conn(uuid: Uuid, north: nat, south: nat, times: Times, state: State, closings: nat)

  /** A connection is known by the transport it uses and the UUID stamped on its frames. */
  datatype Key = Key(t: nat, u: Uuid)

  /** The controller's transports are south of it, the segment's are north of it. */
  datatype Side = AtController | AtSegment

  function Bus(side: Side, c: Conn): nat {
    if side.AtController? then c.south else c.north
  }

  function KeyOf(side: Side, c: Conn): Key {
    Key(Bus(side, c), c.uuid)
  }

  function MakeTimes(state: State, now: int): Times {
    seq(4, i => if i <= state then now else 0)
  }

  function Make(uuid: Uuid, north: nat, south: nat, state: State, now: int): Conn {
    Conn(uuid, north, south, MakeTimes(state, now), state, 0)
  }

  /** `connection::make`, whose loop stamps every state up to the first one. */
  method MakeConnection(uuid: Uuid, north: nat, south: nat, state: State, now: int) returns (c: Conn)
    ensures c == Make(uuid, north, south, state, now)
  {
    var times: seq<int> := [0, 0, 0, 0];
    var i := 0;
    while i <= state
      invariant 0 <= i <= state + 1 && |times| == 4
      invariant forall j :: 0 <= j < 4 ==> times[j] == if j < i then now else 0
    {
      times := times[i := now];
      i := i + 1;
    }
    c := Conn(uuid, north, south, times, state, 0);
  }

  function Stamp(c: Conn, state: State, now: int): Conn {
    c.(state := state, times := c.times[state := now])
  }

  /** `state_update`: the switch with its two fall-throughs. */
  function StateUpdate(c: Conn, op: byte, flags: byte, now: int): (r: Conn)
    ensures r.uuid == c.uuid && r.north == c.north && r.south == c.south
  {
    if c.state == CLOSED then c else
    var begun := if c.state == HALF_OPEN then Stamp(c, OPEN, now) else c;
    if op != STOP then begun else
    var stopped := Stamp(begun, begun.state + 1, now);
    var aborted := if flags as int / 64 % 2 == 1 then Stamp(stopped, CLOSED, now) else stopped;
    if aborted.state == CLOSED then aborted.(closings := aborted.closings + 1) else aborted
  }

  /** The state component of `StateUpdate`. */
  function NextState(s: State, op: byte, flags: byte): State {
    if s == CLOSED then CLOSED
    else if op != STOP then (if s == HALF_OPEN then OPEN else s)
    else if flags as int / 64 % 2 == 1 then CLOSED
    else if s == HALF_CLOSED then CLOSED else HALF_CLOSED
  }

  /** Every timestamp up to the current state is set, in order, and not in the
      future; the connection has come to CLOSED once if it is CLOSED, and never otherwise. */
  predicate Lawful(c: Conn, now: int) {
    && (forall i, j :: 0 <= i <= j <= c.state ==> c.times[i] <= c.times[j] <= now)
    && c.closings == (if c.state == CLOSED then 1 else 0)
  }

  lemma StateUpdateIsLawful(c: Conn, op: byte, flags: byte, earlier: int, now: int)
    requires Lawful(c, earlier) && earlier <= now
    ensures var c' := StateUpdate(c, op, flags, now);
      && Lawful(c', now)
      && c'.state == NextState(c.state, op, flags) >= c.state
      && c'.(state := c.state, times := c.times, closings := c.closings) == c
      && (forall i :: 0 <= i <= c.state ==> c'.times[i] == c.times[i])
      && (c.state == CLOSED ==> c' == c)
  {
  }

  // ---------------------------------------------------------------------------
  // Selecting entries

  /** The tests that the handlers' loops make on an entry.  `dead` and `gone` are
      the streams whose weak pointers no longer lock. */
  datatype Sel =
    | Everyone
    | ServingNorth(n: nat, dead: set<nat>)            // north is n, south locks, not CLOSED
    | ServingSouth(b: nat, dead: set<nat>)            // south is b, north locks, not CLOSED
    | Siblings(u: Uuid, t: nat, dead: set<nat>)       // same UUID, other transport, below HALF_CLOSED
    | OfNorth(n: nat)
    | OfSouth(b: nat)
    | Orphans(b: nat, gone: set<nat>)                 // south is b and north does not lock

  predicate Hit(sel: Sel, c: Conn) {
    match sel
    case Everyone => true
    case ServingNorth(n, dead) => c.north == n && c.south !in dead && c.state != CLOSED
    case ServingSouth(b, dead) => c.south == b && c.north !in dead && c.state != CLOSED
    case Siblings(u, t, dead) => c.uuid == u && c.state < HALF_CLOSED && c.south != t && c.south !in dead
    case OfNorth(n) => c.north == n
    case OfSouth(b) => c.south == b
    case Orphans(b, gone) => c.south == b && c.north in gone
  }

  /** What a loop over the table writes on transport `t`: one frame per selected entry. */
  function Addressed(conns: seq<Conn>, side: Side, sel: Sel, op: byte, flags: byte, data: seq<byte>, t: nat): seq<Frame> {
    if conns == [] then [] else
    var c := conns[|conns| - 1];
    var before := Addressed(conns[..|conns| - 1], side, sel, op, flags, data, t);
    if Hit(sel, c) && Bus(side, c) == t then before + [Frame(c.uuid, op, flags, data)] else before
  }

  function Touched(c: Conn, sel: Sel, op: byte, flags: byte, now: int): (r: Conn)
    ensures r.uuid == c.uuid && r.north == c.north && r.south == c.south
  {
    if Hit(sel, c) then StateUpdate(c, op, flags, now) else c
  }

  /** The same loop's effect on the entries themselves. */
  function Touch(conns: seq<Conn>, sel: Sel, op: byte, flags: byte, now: int): (r: seq<Conn>)
    ensures |r| == |conns|
    ensures forall i :: 0 <= i < |conns| ==> r[i] == Touched(conns[i], sel, op, flags, now)
  {
    seq(|conns|, i requires 0 <= i < |conns| => Touched(conns[i], sel, op, flags, now))
  }

  /** `remove_if`: what is left when the selected entries are erased. */
  function Drop(conns: seq<Conn>, sel: Sel): (r: seq<Conn>)
    ensures forall i :: 0 <= i < |r| ==> r[i] in conns && !Hit(sel, r[i])
  {
    if conns == [] then [] else
    var c := conns[|conns| - 1];
    var before := Drop(conns[..|conns| - 1], sel);
    if Hit(sel, c) then before else before + [c]
  }

  /** The bytes waiting on each transport after such a loop. */
  function Notify(outs: seq<seq<byte>>, conns: seq<Conn>, side: Side, sel: Sel, op: byte, flags: byte, data: seq<byte>): (r: seq<seq<byte>>)
    ensures |r| == |outs|
    ensures forall t :: 0 <= t < |outs| ==> r[t] == outs[t] + EncodeAll(Addressed(conns, side, sel, op, flags, data, t))
  {
    seq(|outs|, t requires 0 <= t < |outs| => outs[t] + EncodeAll(Addressed(conns, side, sel, op, flags, data, t)))
  }

  /** A loop that selects nobody writes nothing. */
  lemma {:induction false} AddressedNobody(conns: seq<Conn>, side: Side, sel: Sel, op: byte, flags: byte, data: seq<byte>, t: nat)
    requires forall c :: c in conns ==> !Hit(sel, c)
    ensures Addressed(conns, side, sel, op, flags, data, t) == []
  {
    hide Hit;
    if conns != [] {
      AddressedNobody(conns[..|conns| - 1], side, sel, op, flags, data, t);
    }
  }

  lemma NotifyNobody(outs: seq<seq<byte>>, conns: seq<Conn>, side: Side, sel: Sel, op: byte, flags: byte, data: seq<byte>)
    requires forall c :: c in conns ==> !Hit(sel, c)
    ensures Notify(outs, conns, side, sel, op, flags, data) == outs
  {
    hide Hit, Addressed;
    forall t | 0 <= t < |outs| ensures Notify(outs, conns, side, sel, op, flags, data)[t] == outs[t] {
      AddressedNobody(conns, side, sel, op, flags, data, t);
    }
  }

  /** Nobody is connected to a stream that is not there yet. */
  lemma NobodyBeyond(conns: seq<Conn>, n: nat)
    ensures (forall c :: c in conns ==> c.north < n) ==> forall c :: c in conns ==> !Hit(OfNorth(n), c)
    ensures (forall c :: c in conns ==> c.south < n) ==> forall c :: c in conns ==> !Hit(OfSouth(n), c)
  {
  }

  // ---------------------------------------------------------------------------
  // Looking entries up

  predicate Distinct(conns: seq<Conn>, side: Side) {
    forall i, j :: 0 <= i < j < |conns| ==> KeyOf(side, conns[i]) != KeyOf(side, conns[j])
  }

  /** The first entry with key `k`. */
  function Find(conns: seq<Conn>, side: Side, k: Key): (r: Option<Conn>)
    ensures r.Some? ==> KeyOf(side, r.value) == k && r.value in conns
    ensures r.None? ==> forall i :: 0 <= i < |conns| ==> KeyOf(side, conns[i]) != k
  {
    if conns == [] then None
    else if KeyOf(side, conns[0]) == k then Some(conns[0])
    else Find(conns[1..], side, k)
  }

  lemma {:induction false} FindAt(conns: seq<Conn>, side: Side, i: nat)
    requires Distinct(conns, side)
    requires i < |conns|
    ensures Find(conns, side, KeyOf(side, conns[i])) == Some(conns[i])
  {
    if i > 0 {
      assert conns[1..][i - 1] == conns[i];
      FindAt(conns[1..], side, i - 1);
    }
  }

  /** Where `Find` found it. */
  lemma FindIndex(conns: seq<Conn>, side: Side, k: Key) returns (i: nat)
    requires Find(conns, side, k).Some?
    ensures i < |conns| && conns[i] == Find(conns, side, k).value
  {
    i :| 0 <= i < |conns| && conns[i] == Find(conns, side, k).value;
  }

  lemma TouchDistinct(conns: seq<Conn>, side: Side, sel: Sel, op: byte, flags: byte, now: int)
    requires Distinct(conns, side)
    ensures Distinct(Touch(conns, sel, op, flags, now), side)
  {
    var r := Touch(conns, sel, op, flags, now);
    forall i | 0 <= i < |conns| ensures KeyOf(side, r[i]) == KeyOf(side, conns[i]) {}
  }

  lemma TouchFind(conns: seq<Conn>, side: Side, sel: Sel, op: byte, flags: byte, now: int, k: Key)
    requires Distinct(conns, side)
    ensures Find(conns, side, k).None? ==> Find(Touch(conns, sel, op, flags, now), side, k).None?
    ensures Find(conns, side, k).Some? ==>
      Find(Touch(conns, sel, op, flags, now), side, k) == Some(Touched(Find(conns, side, k).value, sel, op, flags, now))
  {
    TouchDistinct(conns, side, sel, op, flags, now);
    if Find(conns, side, k).Some? {
      var i := FindIndex(conns, side, k);
      FindAt(Touch(conns, sel, op, flags, now), side, i);
    }
  }

  lemma {:induction false} FindAppend(a: seq<Conn>, b: seq<Conn>, side: Side, k: Key)
    ensures Find(a + b, side, k) == if Find(a, side, k).Some? then Find(a, side, k) else Find(b, side, k)
  {
    if a == [] {
      assert a + b == b;
    } else {
      assert (a + b)[1..] == a[1..] + b;
      FindAppend(a[1..], b, side, k);
    }
  }

  lemma {:induction false} DropMembers(conns: seq<Conn>, sel: Sel)
    ensures forall c :: c in Drop(conns, sel) <==> c in conns && !Hit(sel, c)
  {
    if conns != [] {
      DropMembers(conns[..|conns| - 1], sel);
      assert conns == conns[..|conns| - 1] + [conns[|conns| - 1]];
    }
  }

  lemma {:induction false} DropDistinct(conns: seq<Conn>, side: Side, sel: Sel)
    requires Distinct(conns, side)
    ensures Distinct(Drop(conns, sel), side)
  {
    if conns != [] {
      var front := conns[..|conns| - 1];
      DropDistinct(front, side, sel);
      DropMembers(front, sel);
      var kept := Drop(front, sel);
      forall i | 0 <= i < |kept| ensures KeyOf(side, kept[i]) != KeyOf(side, conns[|conns| - 1]) {
        assert kept[i] in kept;
        var j :| 0 <= j < |front| && front[j] == kept[i];
      }
    }
  }

  lemma DropFind(conns: seq<Conn>, side: Side, sel: Sel, k: Key)
    requires Distinct(conns, side)
    ensures Find(Drop(conns, sel), side, k) ==
      match Find(conns, side, k) { case None => None case Some(c) => if Hit(sel, c) then None else Some(c) }
  {
    var left := Drop(conns, sel);
    DropMembers(conns, sel);
    DropDistinct(conns, side, sel);
    if Find(conns, side, k).Some? && !Hit(sel, Find(conns, side, k).value) {
      var c := Find(conns, side, k).value;
      assert c in left;
      var j :| 0 <= j < |left| && left[j] == c;
      FindAt(left, side, j);
    } else {
      forall j | 0 <= j < |left| ensures KeyOf(side, left[j]) != k {
        assert left[j] in left;
        var i :| 0 <= i < |conns| && conns[i] == left[j];
        FindAt(conns, side, i);
      }
    }
  }

  /** Replacing an entry by one with the same key. */
  lemma ReplaceFind(conns: seq<Conn>, side: Side, i: nat, c: Conn, k: Key)
    requires Distinct(conns, side)
    requires i < |conns| && KeyOf(side, c) == KeyOf(side, conns[i])
    ensures Distinct(conns[i := c], side)
    ensures Find(conns[i := c], side, k) == if k == KeyOf(side, c) then Some(c) else Find(conns, side, k)
  {
    var conns' := conns[i := c];
    if k == KeyOf(side, c) {
      FindAt(conns', side, i);
    } else if Find(conns, side, k).Some? {
      var j := FindIndex(conns, side, k);
      FindAt(conns', side, j);
    }
  }

  lemma LastIsFirst(conns: seq<Conn>, side: Side)
    requires Distinct(conns, side)
    requires conns != []
    ensures Find(conns[..|conns| - 1], side, KeyOf(side, conns[|conns| - 1])).None?
  {
    if Find(conns[..|conns| - 1], side, KeyOf(side, conns[|conns| - 1])).Some? {
      var j := FindIndex(conns[..|conns| - 1], side, KeyOf(side, conns[|conns| - 1]));
      assert false;
    }
  }

  // ---------------------------------------------------------------------------
  // Queues of frames

  /** The frames of a queue that carry UUID `u`, in order. */
  function Proj(q: seq<Frame>, u: Uuid): seq<Frame> {
    if q == [] then []
    else if q[0].eid == u then [q[0]] + Proj(q[1..], u)
    else Proj(q[1..], u)
  }

  /** The concatenated payloads of a queue. */
  function Payload(q: seq<Frame>): seq<byte> {
    if q == [] then [] else q[0].payload + Payload(q[1..])
  }

  lemma {:induction false} ProjAppend(a: seq<Frame>, b: seq<Frame>, u: Uuid)
    ensures Proj(a + b, u) == Proj(a, u) + Proj(b, u)
  {
    if a == [] {
      assert a + b == b;
    } else {
      assert (a + b)[1..] == a[1..] + b;
      ProjAppend(a[1..], b, u);
    }
  }

  lemma {:induction false} ProjNone(q: seq<Frame>, u: Uuid)
    requires forall f :: f in q ==> f.eid != u
    ensures Proj(q, u) == []
  {
    if q != [] {
      ProjNone(q[1..], u);
    }
  }

  lemma {:induction false} PayloadAppend(a: seq<Frame>, b: seq<Frame>)
    ensures Payload(a + b) == Payload(a) + Payload(b)
  {
    if a == [] {
      assert a + b == b;
    } else {
      assert (a + b)[1..] == a[1..] + b;
      PayloadAppend(a[1..], b);
    }
  }

  lemma {:induction false} PayloadNone(q: seq<Frame>)
    requires forall i :: 0 <= i < |q| ==> q[i].payload == []
    ensures Payload(q) == []
  {
    if q != [] {
      PayloadNone(q[1..]);
    }
  }

  lemma NothingThere(side: Side, k: Key)
    ensures Proj([], k.u) == [] && Find([], side, k) == None
  {
  }

  lemma One(c: Conn, f: Frame, side: Side, k: Key)
    ensures Find([c], side, k) == if KeyOf(side, c) == k then Some(c) else None
    ensures Proj([f], k.u) == if f.eid == k.u then [f] else []
  {
    assert [c][1..] == [] && [f][1..] == [];
  }

  /** Of everything a loop writes on a transport, one frame at most is for a given connection. */
  lemma {:induction false} AddressedProj(conns: seq<Conn>, side: Side, sel: Sel, op: byte, flags: byte, data: seq<byte>, k: Key)
    requires Distinct(conns, side)
    ensures Proj(Addressed(conns, side, sel, op, flags, data, k.t), k.u) ==
      match Find(conns, side, k) { case None => [] case Some(c) => if Hit(sel, c) then [Frame(k.u, op, flags, data)] else [] }
  {
    hide Hit, Find, Proj;
    if conns == [] {
      assert Proj([], k.u) == [] && Find([], side, k) == None by { NothingThere(side, k); }
    } else {
      var front, c := conns[..|conns| - 1], conns[|conns| - 1];
      One(c, Frame(c.uuid, op, flags, data), side, k);
      AddressedProj(front, side, sel, op, flags, data, k);
      assert conns == front + [c];
      FindAppend(front, [c], side, k);
      ProjAppend(Addressed(front, side, sel, op, flags, data, k.t), [Frame(c.uuid, op, flags, data)], k.u);
      if KeyOf(side, c) == k {
        LastIsFirst(conns, side);
      }
    }
  }

  lemma {:induction false} AddressedMembers(conns: seq<Conn>, side: Side, sel: Sel, op: byte, flags: byte, data: seq<byte>, t: nat)
    ensures forall f :: f in Addressed(conns, side, sel, op, flags, data, t) ==>
      f.op == op && f.flags == flags && f.payload == data &&
      exists c :: c in conns && Hit(sel, c) && Bus(side, c) == t && c.uuid == f.eid
  {
    if conns != [] {
      var front, c := conns[..|conns| - 1], conns[|conns| - 1];
      AddressedMembers(front, side, sel, op, flags, data, t);
      assert conns == front + [c];
      forall f | f in Addressed(conns, side, sel, op, flags, data, t)
        ensures f.op == op && f.flags == flags && f.payload == data &&
          exists d :: d in conns && Hit(sel, d) && Bus(side, d) == t && d.uuid == f.eid
      {
        if f in Addressed(front, side, sel, op, flags, data, t) {
          var d :| d in front && Hit(sel, d) && Bus(side, d) == t && d.uuid == f.eid;
          assert d in conns;
        } else {
          assert c in conns && c.uuid == f.eid;
        }
      }
    }
  }
}
