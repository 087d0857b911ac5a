/** The loops over a connection table, one iteration at a time: how far `Addressed`, `Notify`, `Touch`
    and `Drop` have got when a loop has visited the first `i` entries. */
module Loops {
  import opened Frames
  import opened Connections

  lemma Prefix(conns: seq<Conn>, i: nat)
    requires i < |conns|
    ensures conns[..i + 1] == conns[..i] + [conns[i]] && conns[..i + 1][..i] == conns[..i]
  {
  }

  lemma AddressedStep(conns: seq<Conn>, side: Side, sel: Sel, op: byte, flags: byte, data: seq<byte>, i: nat, t: nat)
    requires i < |conns|
    ensures EncodeAll(Addressed(conns[..i + 1], side, sel, op, flags, data, t)) ==
      EncodeAll(Addressed(conns[..i], side, sel, op, flags, data, t)) +
      (if Hit(sel, conns[i]) && Bus(side, conns[i]) == t then Encode(Frame(conns[i].uuid, op, flags, data)) else [])
  {
    hide Encode, Hit;
    Prefix(conns, i);
    var f := Frame(conns[i].uuid, op, flags, data);
    EncodeAllAppend(Addressed(conns[..i], side, sel, op, flags, data, t), [f]);
    assert EncodeAll([f]) == Encode(f);
  }

  /** What one more iteration adds to the streams. */
  lemma NotifyStep(outs: seq<seq<byte>>, conns: seq<Conn>, side: Side, sel: Sel, op: byte, flags: byte, data: seq<byte>, i: nat)
    requires i < |conns| && Bus(side, conns[i]) < |outs|
    ensures var before, b := Notify(outs, conns[..i], side, sel, op, flags, data), Bus(side, conns[i]);
      Notify(outs, conns[..i + 1], side, sel, op, flags, data) ==
        if Hit(sel, conns[i]) then before[b := before[b] + Encode(Frame(conns[i].uuid, op, flags, data))] else before
  {
    hide Encode, EncodeAll, Addressed, Hit;
    var before, after := Notify(outs, conns[..i], side, sel, op, flags, data), Notify(outs, conns[..i + 1], side, sel, op, flags, data);
    var f := Encode(Frame(conns[i].uuid, op, flags, data));
    forall t | 0 <= t < |outs| ensures after[t] == if Hit(sel, conns[i]) && Bus(side, conns[i]) == t then before[t] + f else before[t] {
      AddressedStep(conns, side, sel, op, flags, data, i, t);
      assert before[t] + [] == before[t];
      assert outs[t] + (EncodeAll(Addressed(conns[..i], side, sel, op, flags, data, t)) + f) == before[t] + f;
    }
  }

  lemma NotifyNone(outs: seq<seq<byte>>, side: Side, sel: Sel, op: byte, flags: byte, data: seq<byte>)
    ensures Notify(outs, [], side, sel, op, flags, data) == outs
  {
    forall t | 0 <= t < |outs| ensures Notify(outs, [], side, sel, op, flags, data)[t] == outs[t] {
      assert outs[t] + [] == outs[t];
    }
  }

  lemma TouchStep(conns: seq<Conn>, sel: Sel, op: byte, flags: byte, now: int, i: nat)
    requires i < |conns|
    ensures Touch(conns[..i + 1], sel, op, flags, now) == Touch(conns[..i], sel, op, flags, now) + [Touched(conns[i], sel, op, flags, now)]
  {
    hide Hit, StateUpdate;
    Prefix(conns, i);
  }

  /** The table in the middle of a loop that updates the selected entries: the part already visited, then the rest. */
  function Halfway(conns: seq<Conn>, sel: Sel, op: byte, flags: byte, now: int, i: nat): seq<Conn>
    requires i <= |conns|
  {
    Touch(conns[..i], sel, op, flags, now) + conns[i..]
  }

  lemma HalfwayStep(conns: seq<Conn>, sel: Sel, op: byte, flags: byte, now: int, i: nat)
    requires i < |conns|
    ensures var cur := Halfway(conns, sel, op, flags, now, i);
      && |cur| == |conns| && cur[i] == conns[i]
      && Halfway(conns, sel, op, flags, now, i + 1) == cur[i := Touched(conns[i], sel, op, flags, now)]
      && (!Hit(sel, conns[i]) ==> Halfway(conns, sel, op, flags, now, i + 1) == cur)
  {
    hide Hit, StateUpdate;
    TouchStep(conns, sel, op, flags, now, i);
  }

  lemma HalfwayEnds(conns: seq<Conn>, sel: Sel, op: byte, flags: byte, now: int)
    ensures Halfway(conns, sel, op, flags, now, 0) == conns
    ensures Halfway(conns, sel, op, flags, now, |conns|) == Touch(conns, sel, op, flags, now)
    ensures conns[..0] == [] && conns[..|conns|] == conns
  {
    hide Hit, StateUpdate;
    assert conns[..|conns|] == conns;
  }

  lemma DropStep(conns: seq<Conn>, sel: Sel, i: nat)
    requires i < |conns|
    ensures Drop(conns[..i + 1], sel) == Drop(conns[..i], sel) + (if Hit(sel, conns[i]) then [] else [conns[i]])
  {
    hide Hit;
    Prefix(conns, i);
  }

  lemma EveryoneHit(c: Conn)
    ensures Hit(Everyone, c)
  {
  }

  lemma TouchLast(left: seq<Conn>, c: Conn, sel: Sel, now: int)
    ensures Touch(left + [c], sel, STOP, ABORT, now) == Touch(left, sel, STOP, ABORT, now) + [Touched(c, sel, STOP, ABORT, now)]
  {
    hide Hit, StateUpdate;
  }

  // ---------------------------------------------------------------------------
  // Streams

  /** The header, then the payload in pieces of at most 256 bytes, as `stream_write` copies it. */
  method StreamWrite(out: seq<byte>, f: Frame) returns (r: seq<byte>)
    ensures r == out + Encode(f)
  {
    var head := f.eid + [1, 0] + LengthField(HDRLEN + |f.payload|) + [0, 0] + [f.op, f.flags];
    r := out + head;
    var i := 0;
    while i < |f.payload|
      invariant 0 <= i <= |f.payload| && r == out + head + f.payload[..i]
    {
      var k := if |f.payload| - i < 256 then |f.payload| - i else 256;
      assert out + head + f.payload[..i] + f.payload[i..i + k] == out + head + f.payload[..i + k];
      r := r + f.payload[i..i + k];
      i := i + k;
    }
    assert out + head + f.payload[..i] == out + (head + f.payload);
  }

  /** The kernel took some bytes from the front of some streams. */
  predicate Drained(a: seq<seq<byte>>, b: seq<seq<byte>>) {
    |b| == |a| && forall t :: 0 <= t < |a| ==> |b[t]| <= |a[t]| && b[t] == a[t][|a[t]| - |b[t]|..]
  }

  lemma DrainedMore(a: seq<seq<byte>>, b: seq<seq<byte>>, c: seq<seq<byte>>)
    requires Drained(a, b) && Drained(b, c)
    ensures Drained(a, c)
  {
    forall t | 0 <= t < |a| ensures |c[t]| <= |a[t]| && c[t] == a[t][|a[t]| - |c[t]|..] {
      assert c[t] == b[t][|b[t]| - |c[t]|..];
    }
  }
}
