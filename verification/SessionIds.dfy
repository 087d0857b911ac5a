/** The UUIDs of the connections of one full-duplex session. */
module SessionIds {
  import opened Frames
  import opened Connections
  import C = Controller

  /** The lower six bits of `clock_seq_reserved`, which are counted; the upper two are the variant. */
  function Clock(u: Uuid): nat {
    u[8] as nat % 64
  }

  function Variant(u: Uuid): nat {
    u[8] as nat / 64
  }

  /** Everything but the counted byte. */
  predicate SameRest(u: Uuid, v: Uuid) {
    u[..8] == v[..8] && u[9..] == v[9..]
  }

  lemma BumpIs(u: Uuid)
    ensures var v := C.Bump(u);
      SameRest(u, v) && Variant(v) == Variant(u) && Clock(v) == (Clock(u) + 1) % 64
  {
    var v := C.Bump(u);
    assert v[..8] == u[..8] && v[9..] == u[9..];
  }

  lemma Unchanged(u: Uuid)
    ensures SameRest(u, u) && Clock(u) % 64 == Clock(u)
  {
  }

  lemma NextClock(c: nat)
    ensures (c % 64 + 1) % 64 == (c + 1) % 64
  {
  }

  lemma Chained(u: Uuid, v: Uuid, w: Uuid)
    requires SameRest(u, v) && SameRest(v, w)
    ensures SameRest(u, w)
  {
  }

  lemma {:induction false} BumpByIs(u: Uuid, k: nat)
    ensures var v := C.BumpBy(u, k);
      SameRest(u, v) && Variant(v) == Variant(u) && Clock(v) == (Clock(u) + k) % 64
  {
    hide C.Bump, Clock, Variant, SameRest;
    if k == 0 {
      assert SameRest(u, u) && Clock(u) % 64 == Clock(u) by { Unchanged(u); }
    } else {
      var v := C.BumpBy(u, k - 1);
      BumpByIs(u, k - 1);
      BumpIs(v);
      NextClock(Clock(u) + k - 1);
      Chained(u, v, C.Bump(v));
    }
  }

  lemma SameNode(u: Uuid, v: Uuid)
    requires SameRest(u, v)
    ensures Node(u) == Node(v)
  {
    assert Node(u) == u[9..][1..] && Node(v) == v[9..][1..];
  }

  /** The connections of a full-duplex session have different UUIDs. */
  predicate Different(u: Uuid, n: nat) {
    forall i, j :: 0 <= i < j < n ==> C.UuidAt(C.FULL_DUPLEX, u, i) != C.UuidAt(C.FULL_DUPLEX, u, j)
  }

  /** They share their node bytes, by which replies are matched, and the variant that section 4.1 of RFC 9562 prescribes. */
  lemma IdsShareNodeAndVariant(u: Uuid, i: nat)
    ensures var v := C.UuidAt(C.FULL_DUPLEX, u, i);
      Node(v) == Node(u) && Variant(v) == Variant(u) && SameRest(u, v)
  {
    BumpByIs(u, i + 1);
    SameNode(u, C.UuidAt(C.FULL_DUPLEX, u, i));
  }

  lemma Collision(c: nat, i: nat, j: nat)
    requires i < j < i + 64
    ensures (c + i) % 64 != (c + j) % 64
  {
  }

  /** Whatever the clock sequence the session starts from, the wrap at 63 keeps them apart exactly up to 64 of them;
      the constructor admits 63. */
  lemma IdsDifferIff(u: Uuid, n: nat)
    ensures Different(u, n) <==> n <= 64
  {
    hide C.Bump, C.BumpBy, Clock, Variant;
    if n <= 64 {
      forall i, j | 0 <= i < j < n ensures C.UuidAt(C.FULL_DUPLEX, u, i) != C.UuidAt(C.FULL_DUPLEX, u, j) {
        BumpByIs(u, i + 1);
        BumpByIs(u, j + 1);
        Collision(Clock(u), i + 1, j + 1);
      }
    } else {
      BumpByIs(u, 1);
      BumpByIs(u, 65);
      SameAll(C.BumpBy(u, 1), C.BumpBy(u, 65));
      assert C.UuidAt(C.FULL_DUPLEX, u, 0) == C.UuidAt(C.FULL_DUPLEX, u, 64);
    }
  }

  lemma SameAll(u: Uuid, v: Uuid)
    requires SameRest(u, v) && Clock(u) == Clock(v) && Variant(u) == Variant(v)
    ensures u == v
  {
    assert u[8] == v[8];
    assert u == u[..8] + [u[8]] + u[9..] && v == v[..8] + [v[8]] + v[9..];
  }

  /** In the table: the connections made for a client are told apart by UUID alone. */
  lemma NewConnectionsDiffer(u: Uuid, n: nat, ts: seq<nat>, now: int, i: nat, j: nat)
    requires i < j < |ts| <= 63
    ensures var made := C.NewConns(C.FULL_DUPLEX, u, n, ts, now);
      made[i].uuid != made[j].uuid && Node(made[i].uuid) == Node(made[j].uuid) == Node(u)
  {
    IdsDifferIff(u, |ts|);
    IdsShareNodeAndVariant(u, i);
    IdsShareNodeAndVariant(u, j);
  }
}
