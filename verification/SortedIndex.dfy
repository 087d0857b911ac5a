/** Vectors kept sorted by owner that serve as dictionaries: the marshallers' buffers and the stream metrics. */
module SortedIndex {
  import Search

  /** An entry is held through a weak pointer: its owner may die, and the entry stays until it is swept. */
  datatype Entry<T> = Entry(owner: nat, value: T)

  predicate Strict<T>(q: seq<Entry<T>>) {
    forall i, j :: 0 <= i < j < |q| ==> q[i].owner < q[j].owner
  }

  predicate Has<T>(q: seq<Entry<T>>, owner: nat) {
    exists i :: 0 <= i < |q| && q[i].owner == owner
  }

  /** The position at which an owner is, or belongs. */
  predicate IsLowerBound<T>(q: seq<Entry<T>>, owner: nat, n: nat) {
    n <= |q| && (forall i :: 0 <= i < n ==> q[i].owner < owner) && (forall i :: n <= i < |q| ==> owner <= q[i].owner)
  }

  /** The entries whose owners live. */
  function Live<T>(q: seq<Entry<T>>, dead: set<nat>): (r: seq<Entry<T>>)
    ensures |r| <= |q|
    ensures (forall i :: 0 <= i < |q| ==> q[i].owner !in dead) ==> r == q
  {
    if q == [] then []
    else
      var x := q[|q| - 1];
      if x.owner in dead then Live(q[..|q| - 1], dead) else Live(q[..|q| - 1], dead) + [x]
  }

  lemma {:induction false} LiveMembers<T>(q: seq<Entry<T>>, dead: set<nat>, e: Entry<T>)
    ensures e in Live(q, dead) <==> e in q && e.owner !in dead
  {
    if q != [] {
      LiveMembers(q[..|q| - 1], dead, e);
      assert q == q[..|q| - 1] + [q[|q| - 1]];
    }
  }

  lemma {:induction false} LiveIsStrict<T>(q: seq<Entry<T>>, dead: set<nat>)
    requires Strict(q)
    ensures Strict(Live(q, dead))
  {
    if q != [] {
      var init := q[..|q| - 1];
      LiveIsStrict(init, dead);
      forall i | 0 <= i < |Live(init, dead)| ensures Live(init, dead)[i].owner < q[|q| - 1].owner {
        LiveMembers(init, dead, Live(init, dead)[i]);
      }
    }
  }

  lemma LiveNext<T>(q: seq<Entry<T>>, dead: set<nat>, i: nat)
    requires i < |q|
    ensures Live(q[..i + 1], dead) == Live(q[..i], dead) + (if q[i].owner in dead then [] else [q[i]])
  {
    assert q[..i + 1][..i] == q[..i];
  }

  // ---------------------------------------------------------------------------
  // Sweeping in place

  /** The living among the first `get` entries of `q` have been moved to the front, and the rest is as it was. */
  ghost predicate Compacted<T>(now: seq<Entry<T>>, q: seq<Entry<T>>, put: nat, get: nat, dead: set<nat>) {
    && |now| == |q| && put <= get <= |q|
    && now[get..] == q[get..] && now[..put] == Live(q[..get], dead)
  }

  lemma CompactedNext<T>(now: seq<Entry<T>>, q: seq<Entry<T>>, put: nat, get: nat, dead: set<nat>)
    requires Compacted(now, q, put, get, dead) && get < |q|
    ensures now[get] == q[get]
    ensures q[get].owner in dead ==> Compacted(now, q, put, get + 1, dead)
    ensures q[get].owner !in dead ==> Compacted(now[put := now[get]], q, put + 1, get + 1, dead)
  {
    hide Live;
    assert now[get] == now[get..][0] == q[get..][0];
    LiveNext(q, dead, get);
    assert now[get + 1..] == now[get..][1..] && q[get + 1..] == q[get..][1..];
    var next := now[put := now[get]];
    assert next[..put + 1] == now[..put] + [q[get]];
    assert next[get + 1..] == now[get + 1..];
  }

  lemma CompactedFirst<T>(q: seq<Entry<T>>, dead: set<nat>)
    ensures Compacted(q, q, 0, 0, dead)
  {
  }

  // ---------------------------------------------------------------------------
  // Making room

  /** The vector with a new entry at `n`, and the dead entries before it swept. */
  function Make<T>(q: seq<Entry<T>>, n: nat, owner: nat, value: T, dead: set<nat>): seq<Entry<T>>
    requires n <= |q|
  {
    Live(q[..n], dead) + [Entry(owner, value)] + q[n..]
  }

  /** Where a new owner may go: what comes before is smaller or dead, what comes after is larger. */
  predicate Fits<T>(q: seq<Entry<T>>, n: nat, owner: nat, dead: set<nat>) {
    && n <= |q|
    && (forall i :: 0 <= i < n ==> q[i].owner < owner || q[i].owner in dead)
    && (forall i :: n <= i < |q| ==> owner < q[i].owner)
  }

  /** What a new entry changes: the others that live stay, and nothing else appears. */
  ghost predicate Added<T>(q: seq<Entry<T>>, r: seq<Entry<T>>, owner: nat, value: T, dead: set<nat>) {
    && Strict(r) && Entry(owner, value) in r
    && (forall e :: e in q && e.owner !in dead ==> e in r)
    && (forall e :: e in r ==> e in q || e == Entry(owner, value))
  }

  lemma MakeIsStrict<T>(q: seq<Entry<T>>, n: nat, owner: nat, value: T, dead: set<nat>)
    requires Strict(q) && Fits(q, n, owner, dead)
    ensures Strict(Make(q, n, owner, value, dead))
  {
    var front := Live(q[..n], dead);
    LiveIsStrict(q[..n], dead);
    forall i | 0 <= i < |front| ensures front[i].owner < owner {
      LiveMembers(q[..n], dead, front[i]);
    }
  }

  lemma MakeAdds<T>(q: seq<Entry<T>>, n: nat, owner: nat, value: T, dead: set<nat>)
    requires Strict(q) && Fits(q, n, owner, dead)
    ensures Added(q, Make(q, n, owner, value, dead), owner, value, dead)
    ensures Make(q, n, owner, value, dead)[|Live(q[..n], dead)|] == Entry(owner, value)
  {
    hide Strict, Live;
    MakeIsStrict(q, n, owner, value, dead);
    var front, r := Live(q[..n], dead), Make(q, n, owner, value, dead);
    assert r[|front|] == Entry(owner, value);
    forall e | e in q && e.owner !in dead ensures e in r {
      var i :| 0 <= i < |q| && q[i] == e;
      MakeKeeps(q, n, owner, value, dead, i);
    }
    forall e | e in r ensures e in q || e == Entry(owner, value) {
      var i :| 0 <= i < |r| && r[i] == e;
      MakeMakes(q, n, owner, value, dead, i);
    }
  }

  lemma MakeKeeps<T>(q: seq<Entry<T>>, n: nat, owner: nat, value: T, dead: set<nat>, i: nat)
    requires n <= |q| && i < |q| && q[i].owner !in dead
    ensures q[i] in Make(q, n, owner, value, dead)
  {
    if i < n {
      assert q[..n][i] == q[i];
      LiveMembers(q[..n], dead, q[i]);
    } else {
      assert q[n..][i - n] == q[i];
    }
  }

  lemma MakeMakes<T>(q: seq<Entry<T>>, n: nat, owner: nat, value: T, dead: set<nat>, i: nat)
    requires n <= |q| && i < |Make(q, n, owner, value, dead)|
    ensures Make(q, n, owner, value, dead)[i] in q || Make(q, n, owner, value, dead)[i] == Entry(owner, value)
  {
    var front := Live(q[..n], dead);
    if i < |front| {
      LiveMembers(q[..n], dead, front[i]);
    }
  }

  // ---------------------------------------------------------------------------
  // Looking up

  function Rank<T>(q: seq<Entry<T>>, owner: nat): (n: nat)
    requires Strict(q)
    ensures IsLowerBound(q, owner, n)
  {
    if q == [] || owner <= q[0].owner then 0
    else
      var n := Rank(q[1..], owner) + 1;
      assert forall i :: 1 <= i < |q| ==> q[i] == q[1..][i - 1];
      n
  }

  /** The vector after a lookup: an owner that has no entry gets one. */
  function Visit<T>(q: seq<Entry<T>>, owner: nat, value: T, dead: set<nat>): (r: seq<Entry<T>>)
    requires Strict(q)
    ensures Strict(r)
  {
    if Has(q, owner) then q
    else
      MakeIsStrict(q, Rank(q, owner), owner, value, dead);
      Make(q, Rank(q, owner), owner, value, dead)
  }

  lemma VisitAdds<T>(q: seq<Entry<T>>, owner: nat, value: T, dead: set<nat>)
    requires Strict(q) && !Has(q, owner)
    ensures Added(q, Visit(q, owner, value, dead), owner, value, dead)
  {
    MakeAdds(q, Rank(q, owner), owner, value, dead);
  }

  /** Streams come, are used and die; each new buffer gets the next number. */
  datatype Op = Use(owner: nat) | Die(owner: nat)
  datatype Run = Run(items: seq<Entry<nat>>, dead: set<nat>, made: nat)

  function Exec(ops: seq<Op>): (run: Run)
    ensures Strict(run.items)
  {
    if ops == [] then Run([], {}, 0)
    else
      var run := Exec(ops[..|ops| - 1]);
      match ops[|ops| - 1]
      case Use(owner) =>
        Run(Visit(run.items, owner, run.made, run.dead), run.dead, if Has(run.items, owner) then run.made else run.made + 1)
      case Die(owner) => run.(dead := run.dead + {owner})
  }

  /** The buffer each stream was given when it was first used. */
  function FirstUse(ops: seq<Op>): map<nat, nat> {
    if ops == [] then map[]
    else
      var m := FirstUse(ops[..|ops| - 1]);
      match ops[|ops| - 1]
      case Use(owner) => if owner in m then m else m[owner := |m|]
      case Die(owner) => m
  }

  /** A stream that has died is not used again. */
  predicate Lawful(ops: seq<Op>) {
    forall i, j :: 0 <= i < j < |ops| && ops[i].Die? && ops[j].Use? ==> ops[i].owner != ops[j].owner
  }

  lemma {:induction false} DeadHaveDied(ops: seq<Op>, owner: nat)
    requires owner in Exec(ops).dead
    ensures Die(owner) in ops
  {
    var last := ops[|ops| - 1];
    if last != Die(owner) {
      DeadHaveDied(ops[..|ops| - 1], owner);
    }
  }

  /** Over every run, a stream has one buffer for all its life, its own; sweeping never takes a living one. */
  lemma {:induction false} OneBufferForLife(ops: seq<Op>)
    requires Lawful(ops)
    ensures var run, first := Exec(ops), FirstUse(ops);
      && Strict(run.items) && run.made == |first|
      && (forall o :: o in first && o !in run.dead ==> Entry(o, first[o]) in run.items)
      && (forall e :: e in run.items ==> e.owner in first && e.value == first[e.owner])
  {
    hide Strict, Visit;
    if ops != [] {
      var m := |ops| - 1;
      var run, first, last := Exec(ops[..m]), FirstUse(ops[..m]), ops[m];
      OneBufferForLife(ops[..m]);
      if last.Use? {
        if last.owner in run.dead {
          DeadHaveDied(ops[..m], last.owner);
          assert false;
        }
        if Has(run.items, last.owner) {
          assert Visit(run.items, last.owner, run.made, run.dead) == run.items by { VisitAgain(run.items, last.owner, run.made, run.dead); }
          var i :| 0 <= i < |run.items| && run.items[i].owner == last.owner;
          assert run.items[i] in run.items;
        } else {
          VisitAdds(run.items, last.owner, run.made, run.dead);
          assert last.owner !in first;
        }
      }
    }
  }

  lemma VisitAgain<T>(q: seq<Entry<T>>, owner: nat, value: T, dead: set<nat>)
    requires Strict(q) && Has(q, owner)
    ensures Visit(q, owner, value, dead) == q
  {
  }

  predicate Numbered(m: map<nat, nat>) {
    && (forall o :: o in m ==> m[o] < |m|)
    && (forall o, p :: o in m && p in m && o != p ==> m[o] != m[p])
  }

  lemma NumberedNext(m: map<nat, nat>, owner: nat)
    requires Numbered(m) && owner !in m
    ensures Numbered(m[owner := |m|])
  {
    var r := m[owner := |m|];
    assert |r| == |m| + 1;
    forall o | o in r ensures r[o] < |r| {
      if o != owner {
        assert m[o] < |m|;
      }
    }
  }

  /** Different streams have different buffers. */
  lemma {:induction false} BuffersAreDistinct(ops: seq<Op>)
    ensures Numbered(FirstUse(ops))
  {
    if ops != [] {
      BuffersAreDistinct(ops[..|ops| - 1]);
      var m, last := FirstUse(ops[..|ops| - 1]), ops[|ops| - 1];
      if last.Use? && last.owner !in m {
        NumberedNext(m, last.owner);
      }
    }
  }

  // ---------------------------------------------------------------------------
  // The vectors themselves

  function Owners<T>(q: seq<Entry<T>>): (keys: seq<int>)
    ensures |keys| == |q| && forall i :: 0 <= i < |q| ==> keys[i] == q[i].owner
  {
    seq(|q|, i requires 0 <= i < |q| => q[i].owner)
  }

  /** `std::lower_bound` over the owners. */
  method LowerBound<T>(q: seq<Entry<T>>, owner: nat) returns (n: nat)
    requires Strict(q)
    ensures IsLowerBound(q, owner, n)
  {
    n := Search.LowerBound(Owners(q), owner);
    ghost var keys := Owners(q);
    assert forall i :: 0 <= i < |q| ==> keys[i] == q[i].owner;
  }

  class Index<T> {
    var items: seq<Entry<T>>

    /** `std::remove_if` of the dead among the first `n`: the living are moved to the front, in order. */
    method RemoveDead(n: nat, dead: set<nat>) returns (put: nat)
      requires n <= |items|
      modifies this
      ensures Compacted(items, old(items), put, n, dead)
    {
      hide Compacted;
      ghost var q := items;
      put := 0;
      var get := 0;
      CompactedFirst(q, dead);
      while get < n
        invariant put <= get <= n <= |items| && Compacted(items, q, put, get, dead)
      {
        CompactedNext(items, q, put, get, dead);
        if items[get].owner !in dead {
          items := items[put := items[get]];
          put := put + 1;
        }
        get := get + 1;
      }
    }

    /** The position of the owner's entry, which is made if there is none: what `_unmarshal` and `_marshal` do to
        their vectors. */
    method Lookup(owner: nat, value: T, dead: set<nat>) returns (at: nat)
      requires Strict(items)
      modifies this
      ensures items == Visit(old(items), owner, value, dead)
      ensures at < |items| && items[at].owner == owner
    {
      at := LowerBound(items, owner);
      LowerBoundIsRank(items, owner, at);
      if at == |items| || items[at].owner != owner {
        ghost var q := items;
        var n := at;
        assert !Has(q, owner);
        var put := RemoveDead(n, dead);
        ghost var front := items[..put];
        if put != at {
          items := items[put := Entry(owner, value)];
          items := items[..put + 1] + items[n..];
          at := put;
          assert items[..put + 1] == front + [Entry(owner, value)];
        } else {
          items := items[..at] + [Entry(owner, value)] + items[at..];
        }
        assert items == Make(q, n, owner, value, dead);
      }
    }
  }

  lemma LowerBoundIsRank<T>(q: seq<Entry<T>>, owner: nat, n: nat)
    requires Strict(q) && IsLowerBound(q, owner, n)
    ensures n == Rank(q, owner) && (Has(q, owner) <==> n < |q| && q[n].owner == owner)
  {
    hide Strict, Rank;
    var r := Rank(q, owner);
    if n < |q| {
      assert n < r <==> q[n].owner < owner;
    }
    if r < |q| {
      assert r < n <==> q[r].owner < owner;
    }
    if Has(q, owner) {
      var i :| 0 <= i < |q| && q[i].owner == owner;
      FirstOfOwner(q, owner, n, i);
    }
  }

  lemma FirstOfOwner<T>(q: seq<Entry<T>>, owner: nat, n: nat, i: nat)
    requires Strict(q) && IsLowerBound(q, owner, n) && i < |q| && q[i].owner == owner
    ensures i == n
  {
    assert n <= i < |q|;
    var first, e := q[n], q[i];
    assert n == i || first.owner < e.owner;
  }
}
