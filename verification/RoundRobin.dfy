/** The weighted round-robin address picker. */
module RoundRobin {

  /** An address with its weight: how often it may be used in a round, how often it was, and its
      priority (lower values first).  `expiry` is absent for an address that never expires. */
  datatype Expiry = Never | At(time: int)
  datatype Address = Address(id: nat, max: nat, count: nat, priority: nat, expiry: Expiry)

  const SIZE_MAX: nat := 0xFFFF_FFFF_FFFF_FFFF

  // ---------------------------------------------------------------------------
  // Weights

  function SumMax(a: seq<Address>, prio: nat): nat {
    if a == [] then 0 else SumMax(a[..|a| - 1], prio) + (if a[|a| - 1].priority == prio then a[|a| - 1].max else 0)
  }

  function SumCount(a: seq<Address>, prio: nat): nat {
    if a == [] then 0 else SumCount(a[..|a| - 1], prio) + (if a[|a| - 1].priority == prio then a[|a| - 1].count else 0)
  }

  predicate IsLowest(a: seq<Address>, prio: nat) {
    (forall i :: 0 <= i < |a| ==> prio <= a[i].priority) && (exists i :: 0 <= i < |a| && a[i].priority == prio)
  }

  /** Addresses that take part, and have turns left. */
  predicate Usable(x: Address, prio: nat) {
    x.priority == prio && x.count < x.max
  }

  predicate AllUsed(a: seq<Address>, prio: nat) {
    forall i :: 0 <= i < |a| && a[i].priority == prio ==> a[i].count == a[i].max
  }

  predicate Bounded(a: seq<Address>, prio: nat) {
    forall i :: 0 <= i < |a| && a[i].priority == prio ==> a[i].count <= a[i].max
  }

  function Cleared(a: seq<Address>): (r: seq<Address>)
    ensures |r| == |a| && forall i :: 0 <= i < |a| ==> r[i] == a[i].(count := 0)
  {
    seq(|a|, i requires 0 <= i < |a| => a[i].(count := 0))
  }

  /** What `find_weights` leaves of an address: it must be usable at least once if nothing else is. */
  function Raised(a: seq<Address>, prio: nat): (r: seq<Address>)
    ensures |r| == |a| && forall i :: 0 <= i < |a| ==> r[i] == if SumMax(a, prio) == 0 && a[i].priority == prio then a[i].(max := 1) else a[i]
  {
    seq(|a|, i requires 0 <= i < |a| => if SumMax(a, prio) == 0 && a[i].priority == prio then a[i].(max := 1) else a[i])
  }

  function Members(a: seq<Address>, prio: nat): nat {
    if a == [] then 0 else Members(a[..|a| - 1], prio) + (if a[|a| - 1].priority == prio then 1 else 0)
  }

  lemma {:induction false} SumsAreOrdered(a: seq<Address>, prio: nat)
    requires Bounded(a, prio)
    ensures SumCount(a, prio) <= SumMax(a, prio)
    ensures SumCount(a, prio) == SumMax(a, prio) <==> AllUsed(a, prio)
  {
    if a != [] {
      SumsAreOrdered(a[..|a| - 1], prio);
    }
  }

  lemma {:induction false} SumCountBump(a: seq<Address>, prio: nat, j: nat)
    requires j < |a| && a[j].priority == prio
    ensures SumCount(a[j := a[j].(count := a[j].count + 1)], prio) == SumCount(a, prio) + 1
    ensures SumMax(a[j := a[j].(count := a[j].count + 1)], prio) == SumMax(a, prio)
  {
    var n, b := |a| - 1, a[j := a[j].(count := a[j].count + 1)];
    if j == n {
      assert b[..n] == a[..n];
    } else {
      assert b[..n] == a[..n][j := a[j].(count := a[j].count + 1)];
      SumCountBump(a[..n], prio, j);
    }
  }

  lemma {:induction false} SumCleared(a: seq<Address>, prio: nat)
    ensures SumCount(Cleared(a), prio) == 0 && SumMax(Cleared(a), prio) == SumMax(a, prio)
  {
    if a != [] {
      assert Cleared(a)[..|a| - 1] == Cleared(a[..|a| - 1]);
      SumCleared(a[..|a| - 1], prio);
    }
  }

  lemma {:induction false} SumOfOnes(a: seq<Address>, b: seq<Address>, prio: nat)
    requires |a| == |b| && forall i :: 0 <= i < |a| ==> b[i] == if a[i].priority == prio then a[i].(max := 1) else a[i]
    ensures SumMax(b, prio) == Members(a, prio)
  {
    if a != [] {
      SumOfOnes(a[..|a| - 1], b[..|a| - 1], prio);
    }
  }

  lemma {:induction false} SomeMember(a: seq<Address>, prio: nat, i: nat)
    requires i < |a| && a[i].priority == prio
    ensures Members(a, prio) > 0
  {
    if i < |a| - 1 {
      SomeMember(a[..|a| - 1], prio, i);
    }
  }

  lemma {:induction false} NoneAbove(a: seq<Address>, prio: nat)
    requires forall i :: 0 <= i < |a| ==> a[i].priority > prio
    ensures SumMax(a, prio) == 0
  {
    if a != [] {
      NoneAbove(a[..|a| - 1], prio);
    }
  }

  /** What is left after the addresses that expired before `t`, or that have no weight, are erased. */
  predicate Stays(x: Address, t: int) {
    (x.expiry.Never? || t <= x.expiry.time) && x.max != 0
  }

  function Kept(a: seq<Address>, t: int): seq<Address> {
    if a == [] then [] else
    var x := a[|a| - 1];
    if Stays(x, t) then Kept(a[..|a| - 1], t) + [x] else Kept(a[..|a| - 1], t)
  }

  // ---------------------------------------------------------------------------
  // One pick

  /** `j` lies strictly after `from` and strictly before `to`, going round. */
  predicate Between(from: nat, j: nat, to: nat) {
    if from < to then from < j < to else j > from || j < to
  }

  /** The table, before the pick, as the picker sees it: a table that is used up starts a new round. */
  function Base(a: seq<Address>, prio: nat): seq<Address> {
    if AllUsed(a, prio) then Cleared(a) else a
  }

  /** One call of `next()` that takes the table from `a` to `b` by picking `j`: the first address with turns left,
      going round from `from`, where the last call stopped. */
  predicate Pick(a: seq<Address>, from: nat, b: seq<Address>, prio: nat, j: nat) {
    var base := Base(a, prio);
    && from < |a| && j < |a| && Usable(base[j], prio)
    && b == base[j := base[j].(count := base[j].count + 1)]
    && forall i :: 0 <= i < |a| && Between(from, i, j) ==> !Usable(base[i], prio)
  }

  lemma Wrap(i: nat, n: nat)
    requires n > 0
    ensures (i + 1) % n == if i % n + 1 == n then 0 else i % n + 1
  {
    var q, r := i / n, i % n;
    assert i == q * n + r;
    if r + 1 == n {
      assert i + 1 == (q + 1) * n + 0;
      ModIs(i + 1, n, q + 1, 0);
    } else {
      ModIs(i + 1, n, q, r + 1);
    }
  }

  lemma MulAtLeast(d: nat, n: nat)
    requires d >= 1
    ensures d * n >= n
  {
  }

  lemma SplitMul(p: nat, q: nat, n: nat)
    requires p <= q
    ensures q * n == p * n + (q - p) * n
  {
  }

  lemma ModIs(x: nat, n: nat, q: nat, r: nat)
    requires n > 0 && x == q * n + r && r < n
    ensures x % n == r
  {
    var q', r' := x / n, x % n;
    Quotients(n, q, r, q', r');
  }

  /** Quotient and remainder are unique. */
  lemma Quotients(n: nat, q: nat, r: nat, q': nat, r': nat)
    requires r < n && r' < n && q * n + r == q' * n + r'
    ensures q == q' && r == r'
  {
    if q < q' {
      SplitMul(q, q', n);
      MulAtLeast(q' - q, n);
      assert false;
    } else if q' < q {
      SplitMul(q', q, n);
      MulAtLeast(q - q', n);
      assert false;
    }
  }

  // ---------------------------------------------------------------------------
  // Whole rounds

  datatype Turn = Turn(from: nat, j: nat)

  /** The tables before, between and after a sequence of calls of `next()` on a fixed set of addresses. */
  predicate Run(tables: seq<seq<Address>>, turns: seq<Turn>, prio: nat) {
    && |tables| == |turns| + 1
    && (forall i :: 0 <= i < |turns| ==> Pick(tables[i], turns[i].from, tables[i + 1], prio, turns[i].j))
    && (forall i :: 0 < i < |turns| && !AllUsed(tables[i], prio) ==> turns[i].from == turns[i - 1].j)
  }

  /** How often `j` was picked. */
  function Tally(turns: seq<Turn>, j: nat): nat {
    if turns == [] then 0 else Tally(turns[..|turns| - 1], j) + (if turns[|turns| - 1].j == j then 1 else 0)
  }

  lemma {:induction false} TallyAppend(a: seq<Turn>, b: seq<Turn>, j: nat)
    ensures Tally(a + b, j) == Tally(a, j) + Tally(b, j)
  {
    if b == [] {
      assert a + b == a;
    } else {
      assert (a + b)[..|a + b| - 1] == a + b[..|b| - 1];
      TallyAppend(a, b[..|b| - 1], j);
    }
  }

  /** Same addresses, whatever the counters. */
  predicate SameBut(a: seq<Address>, b: seq<Address>) {
    |a| == |b| && forall i :: 0 <= i < |a| ==> b[i] == a[i].(count := b[i].count)
  }

  lemma {:induction false} SumMaxSame(a: seq<Address>, b: seq<Address>, prio: nat)
    requires SameBut(a, b)
    ensures SumMax(a, prio) == SumMax(b, prio)
  {
    if a != [] {
      SumMaxSame(a[..|a| - 1], b[..|a| - 1], prio);
    }
  }

  lemma PickKeeps(a: seq<Address>, from: nat, b: seq<Address>, prio: nat, j: nat)
    requires Bounded(a, prio) && Pick(a, from, b, prio, j)
    ensures SameBut(a, b) && Bounded(b, prio) && a[j].priority == prio
    ensures SumCount(b, prio) == 1 + (if AllUsed(a, prio) then 0 else SumCount(a, prio))
  {
    hide SumCount, SumMax, AllUsed, Between;
    SumCleared(a, prio);
    SumCountBump(Base(a, prio), prio, j);
  }

  /** A round may start: nothing has been used yet, or everything has. */
  predicate AtStart(a: seq<Address>, prio: nat) {
    SumCount(a, prio) == 0 || AllUsed(a, prio)
  }

  lemma {:induction false} SumZero(a: seq<Address>, prio: nat)
    requires SumCount(a, prio) == 0
    ensures forall i :: 0 <= i < |a| && a[i].priority == prio ==> a[i].count == 0
  {
    if a != [] {
      SumZero(a[..|a| - 1], prio);
    }
  }

  /** Within a round, the counters are the tally of the picks, and their sum the number of picks. */
  lemma {:induction false} WithinRound(tables: seq<seq<Address>>, turns: seq<Turn>, prio: nat)
    requires Run(tables, turns, prio) && Bounded(tables[0], prio) && AtStart(tables[0], prio)
    requires 1 <= |turns| <= SumMax(tables[0], prio)
    ensures var last := tables[|turns|];
      && SameBut(tables[0], last) && Bounded(last, prio) && SumCount(last, prio) == |turns|
      && forall j :: 0 <= j < |last| ==> if last[j].priority == prio then last[j].count == Tally(turns, j) else Tally(turns, j) == 0
  {
    hide SumCount, SumMax, Between;
    var m := |turns| - 1;
    var a, b, j := tables[m], tables[m + 1], turns[m].j;
    assert Pick(a, turns[m].from, b, prio, j);
    if m == 0 {
      PickKeeps(a, turns[m].from, b, prio, j);
      if !AllUsed(a, prio) {
        SumZero(a, prio);
      }
      assert turns[..0] == [];
    } else {
      WithinRound(tables[..m + 1], turns[..m], prio);
      assert tables[..m + 1][m] == a;
      SumMaxSame(tables[0], a, prio);
      SumsAreOrdered(a, prio);
      PickKeeps(a, turns[m].from, b, prio, j);
    }
  }

  lemma SubRun(tables: seq<seq<Address>>, turns: seq<Turn>, prio: nat, lo: nat, hi: nat)
    requires Run(tables, turns, prio) && lo <= hi <= |turns|
    ensures Run(tables[lo..hi + 1], turns[lo..hi], prio)
  {
    hide Pick, AllUsed;
  }

  /** Shares are exact: `k` times the total weight many calls, from cleared counters or at the start of a round,
      pick every address of the lowest priority value `k` times its weight, and no other address at all. */
  lemma {:induction false} SharesAreExact(tables: seq<seq<Address>>, turns: seq<Turn>, prio: nat, k: nat)
    requires Run(tables, turns, prio) && Bounded(tables[0], prio) && AtStart(tables[0], prio)
    requires SumMax(tables[0], prio) > 0 && |turns| == k * SumMax(tables[0], prio)
    ensures var last := tables[|turns|];
      && SameBut(tables[0], last) && Bounded(last, prio) && AtStart(last, prio)
    ensures forall j :: 0 <= j < |tables[0]| ==>
      Tally(turns, j) == if tables[0][j].priority == prio then k * tables[0][j].max else 0
  {
    hide SumCount, SumMax, Pick;
    var w := SumMax(tables[0], prio);
    if k == 0 {
      assert turns == [];
    } else {
      var m := (k - 1) * w;
      assert m + w == k * w;
      var ts, us := tables[..m + 1], turns[..m];
      SubRun(tables, turns, prio, 0, m);
      assert tables[0..m + 1] == ts && turns[0..m] == us;
      SharesAreExact(ts, us, prio, k - 1);
      assert ts[|us|] == tables[m];
      SumMaxSame(tables[0], tables[m], prio);
      RoundIsExact(tables, turns, prio, m, w);
      assert turns == us + turns[m..];
      forall j | 0 <= j < |tables[0]|
        ensures Tally(turns, j) == if tables[0][j].priority == prio then k * tables[0][j].max else 0
      {
        TallyAppend(us, turns[m..], j);
        Again(k, tables[0][j].max);
      }
    }
  }

  lemma Again(k: nat, x: nat)
    requires k > 0
    ensures (k - 1) * x + x == k * x
  {
  }

  lemma RoundIsExact(tables: seq<seq<Address>>, turns: seq<Turn>, prio: nat, m: nat, w: nat)
    requires Run(tables, turns, prio) && m + w == |turns| && w == SumMax(tables[m], prio) > 0
    requires Bounded(tables[m], prio) && AtStart(tables[m], prio)
    ensures var last := tables[|turns|];
      && SameBut(tables[m], last) && Bounded(last, prio) && AllUsed(last, prio)
      && forall j :: 0 <= j < |last| ==> Tally(turns[m..], j) == if tables[m][j].priority == prio then tables[m][j].max else 0
  {
    hide SumCount, SumMax, Pick;
    SubRun(tables, turns, prio, m, |turns|);
    var ts, us := tables[m..|turns| + 1], turns[m..|turns|];
    assert us == turns[m..];
    WithinRound(ts, us, prio);
    var last := tables[|turns|];
    assert ts[|us|] == last;
    SumMaxSame(tables[m], last, prio);
    SumsAreOrdered(last, prio);
  }

  // ---------------------------------------------------------------------------
  // Fairness within a round

  function Min(a: nat, b: nat): nat {
    if a <= b then a else b
  }

  /** `j` is in the part of the pass that started after `o` and has come to `idx`. */
  predicate Visited(o: nat, idx: nat, j: nat) {
    if o < idx then o < j <= idx else j > o || j <= idx
  }

  /** The pass after `o` is under way and has come to `idx`: whoever has been visited has had `p + 1` turns, the
      others `p`, or as many as they may. */
  predicate Balanced(a: seq<Address>, prio: nat, idx: nat, o: nat, p: nat) {
    && o < |a| && idx < |a|
    && forall j :: 0 <= j < |a| && a[j].priority == prio ==> a[j].count == Min(a[j].max, if Visited(o, idx, j) then p + 1 else p)
  }

  /** The first pick of a round. */
  lemma FirstPickIsBalanced(a: seq<Address>, from: nat, b: seq<Address>, prio: nat, j: nat)
    requires Pick(a, from, b, prio, j) && AtStart(a, prio)
    ensures Balanced(b, prio, j, from, 0)
  {
    hide SumCount;
    if !AllUsed(a, prio) {
      SumZero(a, prio);
    }
    forall i | 0 <= i < |b| && b[i].priority == prio ensures b[i].count == Min(b[i].max, if Visited(from, j, i) then 1 else 0) {
      if i != j && Visited(from, j, i) {
        assert Between(from, i, j);
      }
    }
  }

  /** Every further pick continues the pass, or starts the next one. */
  lemma PickIsBalanced(a: seq<Address>, b: seq<Address>, prio: nat, idx: nat, j: nat, o: nat, p: nat)
    requires Balanced(a, prio, idx, o, p) && Pick(a, idx, b, prio, j) && !AllUsed(a, prio)
    ensures Balanced(b, prio, j, o, p) || Balanced(b, prio, j, o, p + 1)
  {
    if Visited(o, idx, j) {
      forall i | 0 <= i < |b| && b[i].priority == prio ensures b[i].count == Min(b[i].max, if Visited(o, j, i) then p + 2 else p + 1) {
        if i != j && (!Visited(o, idx, i) || Visited(o, j, i)) {
          assert Between(idx, i, j);
        }
      }
    } else {
      forall i | 0 <= i < |b| && b[i].priority == prio ensures b[i].count == Min(b[i].max, if Visited(o, j, i) then p + 1 else p) {
        if i != j && !Visited(o, idx, i) && Visited(o, j, i) {
          assert Between(idx, i, j);
        }
      }
    }
  }

  /** At every moment of every run, the counters of the addresses in play are all `min(max, p)` or `min(max, p + 1)` for one `p`. */
  lemma {:induction false} RunIsBalanced(tables: seq<seq<Address>>, turns: seq<Turn>, prio: nat) returns (o: nat, p: nat)
    requires Run(tables, turns, prio) && Bounded(tables[0], prio) && AtStart(tables[0], prio) && turns != []
    ensures Balanced(tables[|turns|], prio, turns[|turns| - 1].j, o, p) && Bounded(tables[|turns|], prio)
  {
    hide Balanced, SumCount, Pick;
    var m := |turns| - 1;
    var a, b, turn := tables[m], tables[m + 1], turns[m];
    if m == 0 {
      FirstPickIsBalanced(a, turn.from, b, prio, turn.j);
      PickKeeps(a, turn.from, b, prio, turn.j);
      return turn.from, 0;
    }
    SubRun(tables, turns, prio, 0, m);
    assert tables[0..m + 1] == tables[..m + 1] && turns[0..m] == turns[..m];
    o, p := RunIsBalanced(tables[..m + 1], turns[..m], prio);
    assert tables[..m + 1][m] == a && turns[..m][m - 1] == turns[m - 1];
    PickKeeps(a, turn.from, b, prio, turn.j);
    if AllUsed(a, prio) {
      FirstPickIsBalanced(a, turn.from, b, prio, turn.j);
      o, p := turn.from, 0;
    } else {
      PickIsBalanced(a, b, prio, turn.from, turn.j, o, p);
      if !Balanced(b, prio, turn.j, o, p) {
        p := p + 1;
      }
    }
  }

  // ---------------------------------------------------------------------------
  // The interface

  lemma {:induction false} SumCountAppend(a: seq<Address>, b: seq<Address>, prio: nat)
    ensures SumCount(a + b, prio) == SumCount(a, prio) + SumCount(b, prio)
  {
    if b == [] {
      assert a + b == a;
    } else {
      assert (a + b)[..|a + b| - 1] == a + b[..|b| - 1];
      SumCountAppend(a, b[..|b| - 1], prio);
    }
  }

  lemma SumCountNext(a: seq<Address>, lo: nat, hi: nat, prio: nat)
    requires lo <= hi < |a|
    ensures SumCount(a[lo..hi + 1], prio) == SumCount(a[lo..hi], prio) + (if a[hi].priority == prio then a[hi].count else 0)
  {
    assert a[lo..hi + 1][..hi - lo] == a[lo..hi];
  }

  /** Where the search from `s` stands after `k` steps. */
  function Spot(s: nat, k: nat, n: nat): int {
    if k < n - s then s + k else k - (n - s)
  }

  /** The positions it has passed. */
  predicate Passed(s: nat, k: nat, n: nat, i: nat) {
    if k < n - s then s < i <= s + k else i > s || i <= k - (n - s)
  }

  /** The turns taken by the addresses it has passed. */
  function Counted(a: seq<Address>, prio: nat, s: nat, k: nat): nat
    requires s < |a| && k <= |a|
  {
    if k < |a| - s then SumCount(a[s + 1..s + 1 + k], prio)
    else SumCount(a[s + 1..], prio) + SumCount(a[..k - (|a| - s) + 1], prio)
  }

  lemma CountedNext(a: seq<Address>, prio: nat, s: nat, k: nat)
    requires s < |a| && k < |a|
    ensures var x := a[Spot(s, k + 1, |a|)];
      Counted(a, prio, s, k + 1) == Counted(a, prio, s, k) + (if x.priority == prio then x.count else 0)
  {
    hide SumCount;
    var n := |a|;
    assert SumCount([], prio) == 0 by { EmptySum(prio); }
    if k + 1 < n - s {
      SumCountNext(a, s + 1, s + 1 + k, prio);
    } else if k + 1 == n - s {
      assert a[s + 1..s + 1 + k] == a[s + 1..];
      SumCountNext(a, 0, 0, prio);
      assert a[0..1] == a[..1] && a[0..0] == [];
    } else {
      var m := k - (n - s) + 1;
      SumCountNext(a, 0, m, prio);
      assert a[0..m + 1] == a[..m + 1] && a[0..m] == a[..m];
    }
  }

  lemma EmptySum(prio: nat)
    ensures SumCount([], prio) == 0
  {
  }

  lemma {:induction false} CountedBounds(a: seq<Address>, prio: nat, s: nat, k: nat)
    requires s < |a| && k <= |a|
    ensures Counted(a, prio, s, k) <= SumCount(a, prio)
    ensures k == |a| ==> Counted(a, prio, s, k) == SumCount(a, prio)
    decreases |a| - k
  {
    hide SumCount;
    if k == |a| {
      assert a == a[..s + 1] + a[s + 1..];
      SumCountAppend(a[..s + 1], a[s + 1..], prio);
    } else {
      CountedBounds(a, prio, s, k + 1);
      CountedNext(a, prio, s, k);
    }
  }

  /** How often `j` was returned. */
  function Returned(picks: seq<nat>, j: nat): nat {
    if picks == [] then 0 else Returned(picks[..|picks| - 1], j) + (if picks[|picks| - 1] == j then 1 else 0)
  }

  lemma {:induction false} ReturnedIsTally(picks: seq<nat>, turns: seq<Turn>, j: nat)
    requires |picks| == |turns| && forall i :: 0 <= i < |picks| ==> picks[i] == turns[i].j
    ensures Returned(picks, j) == Tally(turns, j)
  {
    if picks != [] {
      ReturnedIsTally(picks[..|picks| - 1], turns[..|turns| - 1], j);
    }
  }

  lemma RunMore(tables: seq<seq<Address>>, turns: seq<Turn>, prio: nat, b: seq<Address>, turn: Turn)
    requires Run(tables, turns, prio) && Pick(tables[|turns|], turn.from, b, prio, turn.j)
    requires turns != [] ==> turn.from == turns[|turns| - 1].j
    ensures Run(tables + [b], turns + [turn], prio)
  {
    hide Pick, AllUsed;
  }

  lemma PickStays(a: seq<Address>, from: nat, b: seq<Address>, prio: nat, j: nat)
    requires Pick(a, from, b, prio, j)
    ensures |b| == |a| && j < |a|
  {
  }

  class Interface {
    var addresses: seq<Address>
    var idx: nat
    var total: nat
    var prio: nat

    /** `find_weights` has been run on the addresses. */
    ghost predicate Valid()
      reads this
    {
      && total == SumMax(addresses, prio) && Bounded(addresses, prio)
      && (addresses != [] ==> IsLowest(addresses, prio) && total > 0)
    }

    /** `find_weights`: the lowest priority value and the weight of the addresses that have it. */
    method FindWeights()
      requires forall i :: 0 <= i < |addresses| ==> addresses[i].priority <= SIZE_MAX && addresses[i].count <= addresses[i].max
      modifies this
      ensures Valid() && idx == old(idx) && addresses == Raised(old(addresses), prio)
    {
      hide Raised, SumMax;
      var weight: nat, low: nat := 0, SIZE_MAX;
      var i := 0;
      assert SumMax(addresses[..0], SIZE_MAX) == 0 by { assert addresses[..0] == []; NoneAbove([], SIZE_MAX); }
      while i < |addresses|
        invariant 0 <= i <= |addresses| && addresses == old(addresses)
        invariant weight == SumMax(addresses[..i], low) && low <= SIZE_MAX && idx == old(idx)
        invariant forall j :: 0 <= j < i ==> low <= addresses[j].priority
        invariant low < SIZE_MAX ==> exists j :: 0 <= j < i && addresses[j].priority == low
        invariant i > 0 ==> exists j :: 0 <= j < i && addresses[j].priority == low
      {
        var x := addresses[i];
        SumMaxNext(addresses, i, low);
        SumMaxNext(addresses, i, x.priority);
        if x.priority < low {
          NoneAbove(addresses[..i], x.priority);
          low := x.priority;
          weight := 0;
        }
        if x.priority == low {
          weight := weight + x.max;
        }
        i := i + 1;
      }
      assert addresses[..i] == addresses;
      ghost var a := addresses;
      RaisedIs(a, low);
      RaisedIsBounded(a, low);
      if weight == 0 {
        weight := RaiseLoop(low);
      } else {
        assert Raised(a, low) == a;
      }
      total, prio := weight, low;
    }

    /** The second loop of `find_weights`. */
    method RaiseLoop(low: nat) returns (weight: nat)
      requires SumMax(addresses, low) == 0
      requires forall i :: 0 <= i < |addresses| ==> addresses[i].count <= addresses[i].max
      modifies this`addresses
      ensures addresses == Raised(old(addresses), low) && weight == SumMax(addresses, low)
      ensures (exists i :: 0 <= i < |addresses| && old(addresses)[i].priority == low) ==> weight > 0
    {
      hide SumMax;
      ghost var a := addresses;
      weight := 0;
      var i := 0;
      while i < |addresses|
        invariant 0 <= i <= |addresses| == |a|
        invariant forall j :: 0 <= j < |a| ==> addresses[j] == if j < i && a[j].priority == low then a[j].(max := 1) else a[j]
        invariant weight == Members(a[..i], low)
      {
        assert a[..i + 1][..i] == a[..i];
        if addresses[i].priority == low {
          addresses := addresses[i := addresses[i].(max := 1)];
          weight := weight + 1;
        }
        i := i + 1;
      }
      assert a[..i] == a;
      SumOfOnes(a, addresses, low);
      forall j | 0 <= j < |a| && a[j].priority == low ensures weight > 0 {
        SomeMember(a, low, j);
      }
    }

    /** `clear_counters`. */
    method ClearCounters()
      modifies this`addresses
      ensures addresses == Cleared(old(addresses))
    {
      var i := 0;
      while i < |addresses|
        invariant 0 <= i <= |addresses| == |old(addresses)|
        invariant forall j :: 0 <= j < |addresses| ==> addresses[j] == if j < i then old(addresses)[j].(count := 0) else old(addresses)[j]
      {
        addresses := addresses[i := addresses[i].(count := 0)];
        i := i + 1;
      }
    }

    /** `next`: the index of the address to use, or -1 if there is none.  Terminates; the search goes on from where the
        last one stopped, and the counters are cleared only when every address in play has been used up. */
    method Next() returns (j: int)
      requires Valid()
      modifies this`addresses, this`idx
      ensures Valid()
      ensures if old(addresses) == [] then j == -1 && addresses == [] && idx == old(idx)
              else j == idx && Pick(old(addresses), old(idx) % |old(addresses)|, addresses, prio, idx)
      decreases AllUsed(addresses, prio)
    {
      hide SumMax, SumCount, Cleared, Counted, Spot, NoneUsable, Pick, IsLowest, AllUsed, Bounded;
      if addresses == [] {
        return -1;
      }
      var n := |addresses|;
      ghost var a, s := addresses, idx % n;
      var sum := 0;
      ghost var k := 0;
      SumsAreOrdered(a, prio);
      assert Counted(a, prio, s, 0) == 0 by { CountedNone(a, prio, s); }
      while sum < total
        invariant k <= n && addresses == a && (k == 0 ==> idx == old(idx)) && (k > 0 ==> idx == Spot(s, k, n) && NoneUsable(a, prio, s, k))
        invariant sum == Counted(a, prio, s, k)
        decreases n - k
      {
        assert k < n by { Unfinished(a, prio, s, k); }
        SpotNext(s, k, n, idx);
        CountedNext(a, prio, s, k);
        idx := (idx + 1) % n;
        var x := addresses[idx];
        if x.priority == prio {
          if x.count < x.max {
            addresses := addresses[idx := x.(count := x.count + 1)];
            PickedFirst(a, addresses, prio, s, k + 1, idx);
            Bumped(a, prio, idx);
            return idx;
          }
          sum := sum + x.count;
        }
        PassedNext(a, prio, s, k);
        k := k + 1;
      }
      CountedBounds(a, prio, s, k);
      assert AllUsed(a, prio);
      ghost var stop := idx;
      assert stop < n && stop % n == stop by { SpotInRange(s, k, n); SmallMod(Spot(s, k, n), n); }
      ClearCounters();
      NotAllCleared(a, prio);
      StillLowest(a, addresses, prio);
      j := Next();
      AfterClearing(a, s, k, stop, addresses, prio, idx);
    }

    /** Any number of calls, one after another, make a run. */
    method NextMany(m: nat) returns (picks: seq<nat>, ghost tables: seq<seq<Address>>, ghost turns: seq<Turn>)
      requires Valid() && addresses != []
      modifies this`addresses, this`idx
      ensures Valid() && Run(tables, turns, prio) && |turns| == |picks| == m
      ensures tables[0] == old(addresses) && tables[m] == addresses
      ensures forall i :: 0 <= i < m ==> picks[i] == turns[i].j
    {
      hide Pick, AllUsed, SumMax, Bounded, IsLowest;
      picks, tables, turns := [], [addresses], [];
      while |picks| < m
        invariant |turns| == |picks| <= m && |tables| == |turns| + 1 && Valid() && addresses != []
        invariant tables[0] == old(addresses) && tables[|turns|] == addresses && Run(tables, turns, prio)
        invariant forall i :: 0 <= i < |picks| ==> picks[i] == turns[i].j
        invariant turns != [] ==> idx == turns[|turns| - 1].j < |addresses|
      {
        ghost var before, from := addresses, idx % |addresses|;
        if turns != [] {
          SmallMod(idx, |addresses|);
        }
        var j := Next();
        PickStays(before, from, addresses, prio, idx);
        RunMore(tables, turns, prio, addresses, Turn(from, idx));
        picks, tables, turns := picks + [j], tables + [addresses], turns + [Turn(from, idx)];
      }
    }

    /** `k` rounds of calls from the start of one return every address of the lowest priority value exactly `k` times its
        weight, and no other. */
    method Rounds(k: nat) returns (picks: seq<nat>)
      requires Valid() && addresses != [] && AtStart(addresses, prio)
      modifies this`addresses, this`idx
      ensures Valid() && |picks| == k * total && AtStart(addresses, prio)
      ensures forall j :: 0 <= j < |old(addresses)| ==>
        Returned(picks, j) == if old(addresses)[j].priority == prio then k * old(addresses)[j].max else 0
    {
      hide SumMax, SumCount, Run, AllUsed, IsLowest, Tally, Returned;
      ghost var tables, turns;
      picks, tables, turns := NextMany(k * total);
      SharesAreExact(tables, turns, prio, k);
      forall j | 0 <= j < |old(addresses)| ensures Returned(picks, j) == Tally(turns, j) {
        ReturnedIsTally(picks, turns, j);
      }
    }

    /** `expire_addresses`: only addresses that expired before `t` or have no weight go; the rest keep order and counters. */
    method ExpireAddresses(t: int) returns (left: nat)
      requires forall i :: 0 <= i < |addresses| ==> addresses[i].priority <= SIZE_MAX && addresses[i].count <= addresses[i].max
      modifies this
      ensures Valid() && left == |addresses| && addresses == Raised(Kept(old(addresses), t), prio)
    {
      hide Raised;
      ghost var a := addresses;
      var kept: seq<Address> := [];
      var i := 0;
      while i < |addresses|
        invariant 0 <= i <= |addresses| && addresses == a && kept == Kept(a[..i], t)
        invariant forall j :: 0 <= j < |kept| ==> kept[j].priority <= SIZE_MAX && kept[j].count <= kept[j].max
      {
        assert a[..i + 1][..i] == a[..i];
        if !((addresses[i].expiry.At? && t > addresses[i].expiry.time) || addresses[i].max == 0) {
          kept := kept + [addresses[i]];
        }
        i := i + 1;
      }
      assert a[..i] == a;
      addresses := kept;
      FindWeights();
      left := |addresses|;
    }
  }

  lemma SumMaxNext(a: seq<Address>, i: nat, prio: nat)
    requires i < |a|
    ensures SumMax(a[..i + 1], prio) == SumMax(a[..i], prio) + (if a[i].priority == prio then a[i].max else 0)
  {
    assert a[..i + 1][..i] == a[..i];
  }

  lemma RaisedIs(a: seq<Address>, low: nat)
    ensures SumMax(a, low) > 0 ==> Raised(a, low) == a
  {
    hide SumMax;
  }

  lemma {:induction false} NoWeight(a: seq<Address>, prio: nat)
    requires SumMax(a, prio) == 0
    ensures forall i :: 0 <= i < |a| && a[i].priority == prio ==> a[i].max == 0
  {
    if a != [] {
      NoWeight(a[..|a| - 1], prio);
    }
  }

  lemma RaisedIsBounded(a: seq<Address>, prio: nat)
    requires forall i :: 0 <= i < |a| ==> a[i].count <= a[i].max
    ensures Bounded(Raised(a, prio), prio)
  {
    hide SumMax;
    if SumMax(a, prio) == 0 {
      NoWeight(a, prio);
    }
  }

  lemma CountedNone(a: seq<Address>, prio: nat, s: nat)
    requires s < |a|
    ensures Counted(a, prio, s, 0) == 0
  {
    assert a[s + 1..s + 1] == [];
  }

  lemma SpotNext(s: nat, k: nat, n: nat, idx: nat)
    requires s < n && k < n && (k == 0 ==> s == idx % n) && (k > 0 ==> idx == Spot(s, k, n))
    ensures 0 <= Spot(s, k + 1, n) < n && (idx + 1) % n == Spot(s, k + 1, n)
  {
    Wrap(idx, n);
    if k > 0 {
      assert idx < n;
      SmallMod(idx, n);
    }
  }

  /** Nothing it has passed can be used. */
  predicate NoneUsable(a: seq<Address>, prio: nat, s: nat, k: nat) {
    forall i :: 0 <= i < |a| && Passed(s, k, |a|, i) ==> !Usable(a[i], prio)
  }

  lemma PassedNext(a: seq<Address>, prio: nat, s: nat, k: nat)
    requires s < |a| && k < |a| && (k > 0 ==> NoneUsable(a, prio, s, k))
    requires 0 <= Spot(s, k + 1, |a|) < |a| && !Usable(a[Spot(s, k + 1, |a|)], prio)
    ensures NoneUsable(a, prio, s, k + 1)
  {
    hide Usable;
    forall i | 0 <= i < |a| && Passed(s, k + 1, |a|, i) ensures !Usable(a[i], prio) {
      if i != Spot(s, k + 1, |a|) {
        assert k > 0 && Passed(s, k, |a|, i);
      }
    }
  }

  lemma SmallMod(x: nat, n: nat)
    requires x < n
    ensures x % n == x
  {
  }

  lemma PickedFirst(a: seq<Address>, b: seq<Address>, prio: nat, s: nat, k: nat, idx: nat)
    requires s < |a| && 0 < k <= |a| && idx == Spot(s, k, |a|) && idx < |a| && Usable(a[idx], prio)
    requires b == a[idx := a[idx].(count := a[idx].count + 1)]
    requires k > 1 ==> NoneUsable(a, prio, s, k - 1)
    ensures !AllUsed(a, prio) && Pick(a, s, b, prio, idx)
  {
    forall i | 0 <= i < |a| && Between(s, i, idx) ensures !Usable(a[i], prio) {
      assert k > 1 && Passed(s, k - 1, |a|, i);
    }
  }

  /** As long as the sum falls short of the total, there is more to search. */
  lemma Unfinished(a: seq<Address>, prio: nat, s: nat, k: nat)
    requires s < |a| && k <= |a| && Bounded(a, prio) && (k > 0 ==> NoneUsable(a, prio, s, k))
    requires Counted(a, prio, s, k) < SumMax(a, prio)
    ensures k < |a|
  {
    hide SumMax, SumCount, Counted;
    if k == |a| {
      CountedBounds(a, prio, s, k);
      SumsAreOrdered(a, prio);
      forall i | 0 <= i < |a| ensures !Usable(a[i], prio) {
        assert Passed(s, k, |a|, i);
      }
    }
  }

  lemma StillLowest(a: seq<Address>, b: seq<Address>, prio: nat)
    requires SameBut(a, b) && IsLowest(a, prio)
    ensures IsLowest(b, prio)
  {
    var i :| 0 <= i < |a| && a[i].priority == prio;
    assert b[i].priority == prio;
  }

  lemma Bumped(a: seq<Address>, prio: nat, j: nat)
    requires j < |a| && Usable(a[j], prio) && Bounded(a, prio) && IsLowest(a, prio)
    ensures var b := a[j := a[j].(count := a[j].count + 1)];
      IsLowest(b, prio) && Bounded(b, prio) && SumMax(b, prio) == SumMax(a, prio)
  {
    hide SumMax, IsLowest;
    SumCountBump(a, prio, j);
    StillLowest(a, a[j := a[j].(count := a[j].count + 1)], prio);
  }

  lemma SpotInRange(s: nat, k: nat, n: nat)
    requires s < n && 0 < k <= n
    ensures 0 <= Spot(s, k, n) < n
  {
  }

  lemma {:induction false} CountedGrows(a: seq<Address>, prio: nat, s: nat, k: nat, m: nat)
    requires s < |a| && k <= m <= |a|
    ensures Counted(a, prio, s, k) <= Counted(a, prio, s, m)
    decreases m
  {
    hide Counted;
    if k < m {
      CountedGrows(a, prio, s, k, m - 1);
      CountedNext(a, prio, s, m - 1);
    }
  }

  /** What has not been passed when everything has been counted has had no turn. */
  lemma NothingLeft(a: seq<Address>, prio: nat, s: nat, k: nat, i: nat)
    requires s < |a| && 0 < k <= |a| && i < |a| && !Passed(s, k, |a|, i) && a[i].priority == prio
    requires Counted(a, prio, s, k) >= SumCount(a, prio)
    ensures a[i].count == 0
  {
    hide Counted, SumCount;
    var m := if i > s then i - s - 1 else i + |a| - s - 1;
    assert k <= m < |a| && Spot(s, m + 1, |a|) == i;
    CountedNext(a, prio, s, m);
    CountedGrows(a, prio, s, k, m);
    CountedBounds(a, prio, s, m + 1);
  }

  /** A new round goes on from where the old one was when the call came: what the search has gone past on the way to
      finding everything used up has no turns to give. */
  lemma AfterClearing(a: seq<Address>, s: nat, k: nat, stop: nat, b: seq<Address>, prio: nat, j: nat)
    requires s < |a| && 0 < k <= |a| && stop == Spot(s, k, |a|) && stop < |a| && Counted(a, prio, s, k) >= SumCount(a, prio)
    requires AllUsed(a, prio) && !AllUsed(Cleared(a), prio) && Pick(Cleared(a), stop, b, prio, j)
    ensures Pick(a, s, b, prio, j)
  {
    hide Counted, SumCount;
    var c := Cleared(a);
    forall i | 0 <= i < |a| && !Passed(s, k, |a|, i) ensures !Usable(c[i], prio) {
      if a[i].priority == prio {
        NothingLeft(a, prio, s, k, i);
      }
    }
    forall i | 0 <= i < |a| && Between(s, i, j) ensures !Usable(c[i], prio) {
      if Passed(s, k, |a|, i) {
        assert Between(stop, i, j);
      }
    }
  }

  lemma NotAllCleared(a: seq<Address>, prio: nat)
    requires SumMax(a, prio) > 0
    ensures !AllUsed(Cleared(a), prio) && Bounded(Cleared(a), prio) && SumMax(Cleared(a), prio) == SumMax(a, prio)
  {
    hide SumMax, SumCount;
    SumCleared(a, prio);
    SumsAreOrdered(Cleared(a), prio);
  }
}
