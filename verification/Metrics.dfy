/** The per-stream averages of inter-arrival and inter-completion times. */
module Metrics {
  import S = SortedIndex

  const TWO_63: int := 0x8000_0000_0000_0000

  /** The representation of durations; leaving it would be undefined. */
  newtype int64 = x: int | -0x8000_0000_0000_0000 <= x < 0x8000_0000_0000_0000

  const MAX: int64 := 0x7FFF_FFFF_FFFF_FFFF
  const MIN: int64 := -0x8000_0000_0000_0000

  // ---------------------------------------------------------------------------
  // Division that truncates toward zero

  function Abs(x: int): nat {
    if x < 0 then -x else x
  }

  function Quot(x: int, y: int): int
    requires y != 0
  {
    if (x < 0) == (y < 0) then Abs(x) / Abs(y) else -(Abs(x) / Abs(y))
  }

  function Rem(x: int, y: int): int
    requires y != 0
  {
    x - Quot(x, y) * y
  }

  /** The machine's `/`, which is undefined for the smallest value over -1. */
  function Div(x: int64, y: int64): (r: int64)
    requires y != 0 && !(x == MIN && y == -1)
    ensures r as int == Quot(x as int, y as int)
  {
    QuotFits(x as int, y as int);
    Quot(x as int, y as int) as int64
  }

  function Mod(x: int64, y: int64): (r: int64)
    requires y != 0 && !(x == MIN && y == -1)
    ensures r as int == Rem(x as int, y as int)
  {
    RemFits(x as int, y as int);
    Rem(x as int, y as int) as int64
  }

  lemma MulMono(k: nat, q: nat, b: nat)
    requires k <= q
    ensures k * b <= q * b
  {
  }

  lemma DivBound(a: nat, b: nat)
    requires b > 0
    ensures 0 <= a / b <= a && a - b < a / b * b <= a
    ensures b > 1 && a > 0 ==> a / b < a
  {
    var q := a / b;
    assert a == q * b + a % b;
    MulMono(1, b, q);
    if b > 1 {
      MulMono(2, b, q);
    }
  }

  lemma QuotFits(x: int, y: int)
    requires y != 0 && -TWO_63 <= x < TWO_63 && !(x == -TWO_63 && y == -1)
    ensures -TWO_63 <= Quot(x, y) < TWO_63
  {
    DivBound(Abs(x), Abs(y));
  }

  lemma RemFits(x: int, y: int)
    requires y != 0
    ensures Abs(Rem(x, y)) <= Abs(x) && Abs(Rem(x, y)) < Abs(y)
    ensures x >= 0 ==> Rem(x, y) >= 0
    ensures x <= 0 ==> Rem(x, y) <= 0
  {
    var q := Abs(x) / Abs(y);
    DivBound(Abs(x), Abs(y));
    assert Quot(x, y) * y == if x < 0 then -(q * Abs(y)) else q * Abs(y) by { Signs(x, y, q); }
  }

  lemma Signs(x: int, y: int, q: nat)
    requires y != 0 && q == Abs(x) / Abs(y)
    ensures Quot(x, y) * y == if x < 0 then -(q * Abs(y)) else q * Abs(y)
  {
    if y < 0 {
      assert q * -y == -(q * y);
      assert (0 - q) * y == -(q * y);
    }
  }

  /** A dividend of the divisor's sign that is less than twice the divisor goes once. */
  lemma GoesOnce(x: int, y: int)
    requires y != 0 && (x < 0) == (y < 0) && Abs(y) <= Abs(x) < 2 * Abs(y)
    ensures Quot(x, y) == 1 && Rem(x, y) == x - y
  {
    Once(Abs(x), Abs(y));
  }

  lemma Once(a: nat, b: nat)
    requires 0 < b <= a < 2 * b
    ensures a / b == 1
  {
    var q := a / b;
    assert a == q * b + a % b;
    if q >= 2 {
      MulMono(2, q, b);
      assert false;
    }
  }

  // ---------------------------------------------------------------------------
  // The update

  /** `update_ewma`: the step toward a new sample `delta` away from the average, two quarters of it. */
  function UpdateEwma(delta: int64): (r: int64)
    ensures r as int == Quot(2 * delta as int, 4)
  {
    if delta > Div(MAX, 2) then
      GoesOnce(MAX as int, delta as int);
      var overflow := delta - Mod(MAX, delta);
      Halves(delta as int, overflow as int);
      Div(MAX, 4) + Div(overflow, 4) + Div(Mod(MAX, 4) + Mod(overflow, 4), 4)
    else if delta < Div(MIN, 2) then
      GoesOnce(MIN as int, delta as int);
      var underflow := delta - Mod(MIN, delta);
      Div(MIN, 4) + Div(underflow, 4) + Div(Mod(MIN, 4) + Mod(underflow, 4), 4)
    else
      Div(2 * delta, 4)
  }

  lemma Halves(delta: int, overflow: int)
    requires 0 < delta <= MAX as int && overflow == 2 * delta - MAX as int && overflow > 0
    ensures Quot(2 * delta, 4) == Quot(MAX as int, 4) + Quot(overflow, 4) + Quot(Rem(MAX as int, 4) + Rem(overflow, 4), 4)
  {
  }

  /** Durations, in milliseconds, that the clock can produce. */
  predicate Small(x: int64) {
    -9_223_372_036_855 <= x <= 9_223_372_036_855
  }

  predicate Within(lo: int64, x: int64, hi: int64) {
    lo <= x <= hi || hi <= x <= lo
  }

  /** The average after one more sample: it moves toward the sample and never past it. */
  function Average(avg: int64, sample: int64): (r: int64)
    requires Small(avg) && Small(sample)
    ensures Within(avg, r, sample) && Small(r)
    ensures Abs(sample as int - r as int) == (Abs(sample as int - avg as int) + 1) / 2
  {
    avg + UpdateEwma(sample - avg)
  }

  /** The averages after a sequence of samples, from an average of `start`. */
  function Averages(start: int64, samples: seq<int64>): (r: int64)
    requires Small(start) && forall i :: 0 <= i < |samples| ==> Small(samples[i])
    ensures Small(r)
  {
    if samples == [] then start else Average(Averages(start, samples[..|samples| - 1]), samples[|samples| - 1])
  }

  /** Averages never leave the range of what they started from and what was observed. */
  lemma {:induction false} AveragesStayInRange(start: int64, samples: seq<int64>, lo: int64, hi: int64)
    requires Small(start) && lo <= start <= hi
    requires forall i :: 0 <= i < |samples| ==> Small(samples[i]) && lo <= samples[i] <= hi
    ensures lo <= Averages(start, samples) <= hi
  {
    if samples != [] {
      AveragesStayInRange(start, samples[..|samples| - 1], lo, hi);
    }
  }

  function Pow2(k: nat): nat {
    if k == 0 then 1 else 2 * Pow2(k - 1)
  }

  /** A steady rate is approached at a halving distance, down to one millisecond. */
  lemma {:induction false} AveragesConverge(start: int64, samples: seq<int64>, rate: int64)
    requires Small(start) && Small(rate) && forall i :: 0 <= i < |samples| ==> samples[i] == rate
    ensures Abs(rate as int - Averages(start, samples) as int) * Pow2(|samples|) < Abs(rate as int - start as int) + Pow2(|samples|)
  {
    hide Average, Within, Small;
    if samples != [] {
      var k := |samples| - 1;
      AveragesConverge(start, samples[..k], rate);
      var avg := Averages(start, samples[..k]);
      var d := Abs(rate as int - avg as int);
      assert Abs(rate as int - Average(avg, rate) as int) == (d + 1) / 2;
      HalvingStep(d, Pow2(k), Abs(rate as int - start as int));
    }
  }

  lemma HalvingStep(d: nat, p: nat, d0: nat)
    requires d * p < d0 + p
    ensures (d + 1) / 2 * (2 * p) < d0 + 2 * p
  {
    var h := (d + 1) / 2;
    assert 2 * h <= d + 1;
    assert h * (2 * p) == 2 * h * p;
    assert 2 * h * p <= (d + 1) * p;
    assert (d + 1) * p == d * p + p;
  }

  // ---------------------------------------------------------------------------
  // One stream

  /** Points of the steady clock, in nanoseconds. */
  newtype Time = x: int | 0 <= x < 0x8000_0000_0000_0000

  datatype Metric = Metric(interarrival: int64, intercompletion: int64, lastArrival: Time, lastCompletion: Time)

  predicate Sane(m: Metric) {
    Small(m.interarrival) && Small(m.intercompletion)
  }

  function New(t: Time): (m: Metric)
    ensures Sane(m)
  {
    Metric(0, 0, t, t)
  }

  /** The milliseconds between two points, rounded toward zero. */
  function Between(from: Time, to: Time): (d: int64)
    ensures Small(d) && (from <= to ==> d >= 0)
  {
    Div((to as int - from as int) as int64, 1_000_000)
  }

  datatype Kind = Arrival | Completion

  /** A stream's metric after one event of its own. */
  function Observe(m: Metric, kind: Kind, t: Time): (r: Metric)
    requires Sane(m)
    ensures Sane(r)
  {
    match kind
    case Arrival => m.(lastArrival := t, interarrival := Average(m.interarrival, Between(m.lastArrival, t)))
    case Completion => m.(lastCompletion := t, intercompletion := Average(m.intercompletion, Between(m.lastCompletion, t)))
  }

  /** What `add_arrival` and `add_completion` return. */
  function Reading(m: Metric, kind: Kind): int64 {
    match kind case Arrival => m.interarrival case Completion => m.intercompletion
  }

  // ---------------------------------------------------------------------------
  // All streams

  type Items = seq<S.Entry<Metric>>

  predicate AllSane(q: Items) {
    forall i :: 0 <= i < |q| ==> Sane(q[i].value)
  }

  /** A living entry with a larger owner. */
  predicate Stops(e: S.Entry<Metric>, owner: nat, dead: set<nat>) {
    e.owner !in dead && owner < e.owner
  }

  /** The first position with a living larger owner. */
  predicate IsSlot(q: Items, owner: nat, dead: set<nat>, n: nat) {
    n <= |q| && (n < |q| ==> Stops(q[n], owner, dead)) && forall i :: 0 <= i < n ==> !Stops(q[i], owner, dead)
  }

  lemma SlotFits(q: Items, owner: nat, dead: set<nat>, n: nat)
    requires S.Strict(q) && IsSlot(q, owner, dead, n) && !S.Has(q, owner)
    ensures S.Fits(q, n, owner, dead)
  {
  }

  /** How an event of a stream changes the vector: nothing if the stream has died, a fresh entry if it has none,
      and otherwise its own entry only. */
  ghost predicate Records(q: Items, r: Items, owner: nat, kind: Kind, t: Time, dead: set<nat>)
    requires AllSane(q)
  {
    if owner in dead then r == q
    else if S.Has(q, owner) then exists i :: 0 <= i < |q| && q[i].owner == owner && r == q[i := q[i].(value := Observe(q[i].value, kind, t))]
    else S.Added(q, r, owner, New(t), dead)
  }

  lemma RecordsKeeps(q: Items, r: Items, owner: nat, kind: Kind, t: Time, dead: set<nat>)
    requires S.Strict(q) && AllSane(q) && Records(q, r, owner, kind, t, dead)
    ensures S.Strict(r) && AllSane(r)
  {
    if owner !in dead && !S.Has(q, owner) {
      forall i | 0 <= i < |r| ensures Sane(r[i].value) {
        assert r[i] in r;
      }
    }
  }

  /** The other streams keep their metrics. */
  lemma RecordsFrame(q: Items, r: Items, owner: nat, kind: Kind, t: Time, dead: set<nat>, e: S.Entry<Metric>)
    requires S.Strict(q) && AllSane(q) && Records(q, r, owner, kind, t, dead)
    ensures e in r && e.owner != owner ==> e in q
    ensures e in q && e.owner != owner && e.owner !in dead ==> e in r
  {
    if owner !in dead && S.Has(q, owner) {
      var i :| 0 <= i < |q| && q[i].owner == owner && r == q[i := q[i].(value := Observe(q[i].value, kind, t))];
      if e in q && e.owner != owner {
        var j :| 0 <= j < |q| && q[j] == e;
        assert r[j] == e;
      }
    }
  }

  // ---------------------------------------------------------------------------
  // Runs

  datatype Op = Event(owner: nat, kind: Kind, t: Time) | Die(owner: nat)

  /** The vectors before, between and after the operations of a run, from an empty one. */
  ghost predicate Run(states: seq<Items>, ops: seq<Op>) {
    && |states| == |ops| + 1 && states[0] == []
    && forall i :: 0 <= i < |ops| ==> Follows(states[i], states[i + 1], ops[i], Dead(ops[..i]))
  }

  ghost predicate Follows(q: Items, r: Items, op: Op, dead: set<nat>) {
    match op
    case Event(owner, kind, t) => AllSane(q) && Records(q, r, owner, kind, t, dead)
    case Die(_) => r == q
  }

  function Dead(ops: seq<Op>): set<nat> {
    if ops == [] then {}
    else
      var dead := Dead(ops[..|ops| - 1]);
      if ops[|ops| - 1].Die? then dead + {ops[|ops| - 1].owner} else dead
  }

  /** One stream's metric, from its own events alone. */
  datatype Maybe = Unknown | Known(metric: Metric)

  predicate SaneMaybe(m: Maybe) {
    m.Known? ==> Sane(m.metric)
  }

  function History(ops: seq<Op>, owner: nat): (m: Maybe)
    ensures SaneMaybe(m)
  {
    if ops == [] then Unknown
    else
      var m, last := History(ops[..|ops| - 1], owner), ops[|ops| - 1];
      if last.Die? || last.owner != owner then m
      else if m.Unknown? then Known(New(last.t))
      else Known(Observe(m.metric, last.kind, last.t))
  }

  ghost predicate Agrees(q: Items, ops: seq<Op>) {
    && S.Strict(q) && AllSane(q)
    && forall owner :: owner !in Dead(ops) ==>
      match History(ops, owner)
      case Unknown => !S.Has(q, owner)
      case Known(m) => S.Entry(owner, m) in q
  }

  lemma OnlyEntry(q: Items, i: nat, e: S.Entry<Metric>)
    requires S.Strict(q) && i < |q| && e in q && q[i].owner == e.owner
    ensures q[i] == e
  {
  }

  lemma AgreesStep(q: Items, r: Items, ops: seq<Op>, op: Op, owner: nat)
    requires Agrees(q, ops) && Follows(q, r, op, Dead(ops)) && owner !in Dead(ops + [op])
    ensures match History(ops + [op], owner) case Unknown => !S.Has(r, owner) case Known(m) => S.Entry(owner, m) in r
  {
    var all, dead := ops + [op], Dead(ops);
    assert all[..|all| - 1] == ops;
    if op.Event? {
      if owner != op.owner {
        OtherStep(q, r, ops, op, owner);
      } else {
        OwnStep(q, r, ops, op);
      }
    }
  }

  lemma OtherStep(q: Items, r: Items, ops: seq<Op>, op: Op, owner: nat)
    requires Agrees(q, ops) && op.Event? && Follows(q, r, op, Dead(ops)) && owner != op.owner && owner !in Dead(ops)
    ensures match History(ops, owner) case Unknown => !S.Has(r, owner) case Known(m) => S.Entry(owner, m) in r
  {
    hide Records;
    match History(ops, owner)
    case Unknown =>
      if S.Has(r, owner) {
        var i :| 0 <= i < |r| && r[i].owner == owner;
        RecordsFrame(q, r, op.owner, op.kind, op.t, Dead(ops), r[i]);
        assert false;
      }
    case Known(m) =>
      RecordsFrame(q, r, op.owner, op.kind, op.t, Dead(ops), S.Entry(owner, m));
  }

  lemma OwnStep(q: Items, r: Items, ops: seq<Op>, op: Op)
    requires Agrees(q, ops) && op.Event? && Follows(q, r, op, Dead(ops)) && op.owner !in Dead(ops)
    ensures var m := History(ops, op.owner);
      S.Entry(op.owner, if m.Unknown? then New(op.t) else Observe(m.metric, op.kind, op.t)) in r
  {
    match History(ops, op.owner)
    case Unknown =>
    case Known(m) =>
      assert S.Entry(op.owner, m) in q;
      var i :| 0 <= i < |q| && q[i].owner == op.owner && r == q[i := q[i].(value := Observe(q[i].value, op.kind, op.t))];
      OnlyEntry(q, i, S.Entry(op.owner, m));
      assert r[i] == S.Entry(op.owner, Observe(m, op.kind, op.t));
  }

  /** Over every run, each living stream's metric is what its own events alone make of it: no other stream's
      events, and no sweep of dead ones, ever touch it. */
  lemma {:induction false} MetricsAreIndependent(states: seq<Items>, ops: seq<Op>)
    requires Run(states, ops)
    ensures Agrees(states[|ops|], ops)
  {
    hide Follows;
    if ops != [] {
      var m := |ops| - 1;
      var before := ops[..m];
      assert forall i :: 0 <= i < m ==> before[..i] == ops[..i];
      MetricsAreIndependent(states[..m + 1], before);
      var q, r := states[m], states[m + 1];
      assert Follows(q, r, ops[m], Dead(before));
      assert before + [ops[m]] == ops;
      forall owner | owner !in Dead(ops)
        ensures match History(ops, owner) case Unknown => !S.Has(r, owner) case Known(x) => S.Entry(owner, x) in r
      {
        AgreesStep(q, r, before, ops[m], owner);
      }
      StillSane(q, r, ops[m], Dead(before));
    }
  }

  lemma StillSane(q: Items, r: Items, op: Op, dead: set<nat>)
    requires S.Strict(q) && AllSane(q) && Follows(q, r, op, dead)
    ensures S.Strict(r) && AllSane(r)
  {
    if op.Event? {
      RecordsKeeps(q, r, op.owner, op.kind, op.t, dead);
    }
  }

  // ---------------------------------------------------------------------------
  // Bounds over runs

  /** The clock does not go back within a run. */
  predicate Monotone(ops: seq<Op>) {
    forall i, j :: 0 <= i < j < |ops| && ops[i].Event? && ops[j].Event? ==> ops[i].t <= ops[j].t
  }

  /** The points between which a stream's samples of a kind are taken: the event that made its entry, then every
      event of the kind. */
  function Times(ops: seq<Op>, owner: nat, kind: Kind): seq<Time> {
    if ops == [] then []
    else
      var times, last := Times(ops[..|ops| - 1], owner, kind), ops[|ops| - 1];
      if last.Event? && last.owner == owner && (times == [] || last.kind == kind) then times + [last.t] else times
  }

  function Gaps(times: seq<Time>): (gaps: seq<int64>)
    ensures forall i :: 0 <= i < |gaps| ==> Small(gaps[i])
    ensures |gaps| == if times == [] then 0 else |times| - 1
    ensures forall i :: 0 <= i < |gaps| ==> gaps[i] == Between(times[i], times[i + 1])
  {
    if |times| <= 1 then [] else Gaps(times[..|times| - 1]) + [Between(times[|times| - 2], times[|times| - 1])]
  }

  function LastOf(m: Metric, kind: Kind): Time {
    match kind case Arrival => m.lastArrival case Completion => m.lastCompletion
  }

  /** A stream's reading is the average of the gaps between its events. */
  lemma {:induction false} HistoryIsAverage(ops: seq<Op>, owner: nat, kind: Kind)
    ensures History(ops, owner).Known? <==> Times(ops, owner, kind) != []
    ensures var times := Times(ops, owner, kind);
      times != [] ==>
        && LastOf(History(ops, owner).metric, kind) == times[|times| - 1]
        && Reading(History(ops, owner).metric, kind) == Averages(0, Gaps(times))
  {
    hide Average, Between, Small, Abs, Within, Gaps, Averages;
    if ops != [] {
      var before, last := ops[..|ops| - 1], ops[|ops| - 1];
      HistoryIsAverage(before, owner, kind);
      var times := Times(before, owner, kind);
      if last.Event? && last.owner == owner {
        if times == [] {
          assert Averages(0, Gaps([last.t])) == 0 by { NoGaps(last.t); }
        } else if last.kind == kind {
          GapsNext(times, last.t);
          AveragesNext(Gaps(times), Between(times[|times| - 1], last.t));
        }
      }
    }
  }

  lemma NoGaps(t: Time)
    ensures Averages(0, Gaps([t])) == 0
  {
  }

  lemma GapsNext(times: seq<Time>, t: Time)
    requires times != []
    ensures Gaps(times + [t]) == Gaps(times) + [Between(times[|times| - 1], t)]
  {
    hide Between, Small;
    assert (times + [t])[..|times|] == times;
  }

  lemma AveragesNext(samples: seq<int64>, x: int64)
    requires Small(x) && forall i :: 0 <= i < |samples| ==> Small(samples[i])
    ensures Averages(0, samples + [x]) == Average(Averages(0, samples), x)
  {
    hide Average, Small, Abs, Within;
    assert (samples + [x])[..|samples|] == samples;
  }

  lemma {:induction false} TimesAreMonotone(ops: seq<Op>, owner: nat, kind: Kind)
    requires Monotone(ops)
    ensures var times := Times(ops, owner, kind);
      && (forall i :: 0 <= i < |times| - 1 ==> times[i] <= times[i + 1])
      && (times != [] ==> exists i :: 0 <= i < |ops| && ops[i].Event? && ops[i].t == times[|times| - 1])
  {
    if ops != [] {
      TimesAreMonotone(ops[..|ops| - 1], owner, kind);
    }
  }

  /** Over every run whose clock does not go back, what is stored for a living stream lies between zero and the
      largest gap between its events. */
  lemma MetricsStayInRange(states: seq<Items>, ops: seq<Op>, e: S.Entry<Metric>, kind: Kind, largest: int64)
    requires Run(states, ops) && Monotone(ops) && e in states[|ops|] && e.owner !in Dead(ops)
    requires largest >= 0 && forall i :: 0 <= i < |Gaps(Times(ops, e.owner, kind))| ==> Gaps(Times(ops, e.owner, kind))[i] <= largest
    ensures Reading(e.value, kind) == Averages(0, Gaps(Times(ops, e.owner, kind)))
    ensures 0 <= Reading(e.value, kind) <= largest
  {
    hide Follows, History, Times, Gaps, Averages, Monotone;
    MetricsAreIndependent(states, ops);
    var q, i := states[|ops|], 0;
    i :| 0 <= i < |q| && q[i] == e;
    assert S.Has(q, e.owner);
    OnlyEntry(q, i, S.Entry(e.owner, History(ops, e.owner).metric));
    HistoryIsAverage(ops, e.owner, kind);
    TimesAreMonotone(ops, e.owner, kind);
    var times := Times(ops, e.owner, kind);
    forall i | 0 <= i < |Gaps(times)| ensures Gaps(times)[i] >= 0 {
      assert times[i] <= times[i + 1];
    }
    AveragesStayInRange(0, Gaps(times), 0, largest);
  }

  // ---------------------------------------------------------------------------
  // The vector itself

  class StreamMetrics {
    var measurements: Items

    /** `find_metric`: the position of a living stream's entry, or the end. */
    method FindMetric(owner: nat, dead: set<nat>) returns (at: nat)
      requires S.Strict(measurements)
      ensures if owner !in dead && S.Has(measurements, owner) then at < |measurements| && measurements[at].owner == owner
              else at == |measurements|
    {
      if owner in dead {
        return |measurements|;
      }
      var lb := S.LowerBound(measurements, owner);
      S.LowerBoundIsRank(measurements, owner, lb);
      if lb == |measurements| || measurements[lb].owner == owner {
        return lb;
      }
      return |measurements|;
    }

    /** `remove_and_find_insertion_point`: compacts the living entries before the slot. */
    method RemoveAndFindInsertionPoint(owner: nat, dead: set<nat>) returns (put: nat, get: nat)
      modifies this
      ensures IsSlot(old(measurements), owner, dead, get)
      ensures S.Compacted(measurements, old(measurements), put, get, dead)
    {
      ghost var q := measurements;
      put, get := 0, 0;
      S.CompactedFirst(q, dead);
      while get != |measurements|
        invariant put <= get <= |measurements| == |q| && S.Compacted(measurements, q, put, get, dead)
        invariant forall i :: 0 <= i < get ==> !Stops(q[i], owner, dead)
      {
        hide S.Compacted;
        S.CompactedNext(measurements, q, put, get, dead);
        if measurements[get].owner in dead {
          get := get + 1;
        } else if owner < measurements[get].owner {
          break;
        } else {
          measurements := measurements[put := measurements[get]];
          put, get := put + 1, get + 1;
        }
      }
    }

    /** `insert_metric` with `insert_at_pos`: the position of the new entry. */
    method InsertMetric(owner: nat, t: Time, dead: set<nat>) returns (at: nat)
      requires S.Strict(measurements) && !S.Has(measurements, owner)
      modifies this
      ensures S.Added(old(measurements), measurements, owner, New(t), dead)
      ensures at < |measurements| && measurements[at] == S.Entry(owner, New(t))
      ensures exists n :: IsSlot(old(measurements), owner, dead, n) && measurements == S.Make(old(measurements), n, owner, New(t), dead)
    {
      ghost var q := measurements;
      var put, get := RemoveAndFindInsertionPoint(owner, dead);
      SlotFits(q, owner, dead, get);
      S.MakeAdds(q, get, owner, New(t), dead);
      ghost var front := measurements[..put];
      if put != get {
        measurements := measurements[put := S.Entry(owner, New(t))];
        measurements := measurements[..put + 1] + measurements[get..];
        assert measurements[..put + 1] == front + [S.Entry(owner, New(t))];
      } else {
        measurements := measurements[..put] + [S.Entry(owner, New(t))] + measurements[put..];
      }
      at := put;
      assert measurements == S.Make(q, get, owner, New(t), dead);
    }

    /** `add_arrival` and `add_completion`, which differ in the pair of fields they update. */
    method AddEvent(owner: nat, kind: Kind, t: Time, dead: set<nat>) returns (reading: int64)
      requires S.Strict(measurements) && AllSane(measurements)
      modifies this
      ensures S.Strict(measurements) && AllSane(measurements)
      ensures Records(old(measurements), measurements, owner, kind, t, dead)
      ensures owner in dead ==> reading == -1
      ensures owner !in dead && !S.Has(old(measurements), owner) ==> reading == 0
      ensures owner !in dead && S.Has(old(measurements), owner) ==>
        exists i :: 0 <= i < |measurements| && measurements[i].owner == owner && reading == Reading(measurements[i].value, kind)
    {
      ghost var q := measurements;
      if owner in dead {
        return -1;
      }
      var at := FindMetric(owner, dead);
      if at == |measurements| {
        var _ := InsertMetric(owner, t, dead);
        RecordsKeeps(q, measurements, owner, kind, t, dead);
        return 0;
      }
      var m := measurements[at].value;
      match kind {
        case Arrival =>
          var interval := Between(m.lastArrival, t);
          m := m.(lastArrival := t);
          m := m.(interarrival := m.interarrival + UpdateEwma(interval - m.interarrival));
          reading := m.interarrival;
        case Completion =>
          var interval := Between(m.lastCompletion, t);
          m := m.(lastCompletion := t);
          m := m.(intercompletion := m.intercompletion + UpdateEwma(interval - m.intercompletion));
          reading := m.intercompletion;
      }
      measurements := measurements[at := measurements[at].(value := m)];
      assert m == Observe(q[at].value, kind, t);
      RecordsKeeps(q, measurements, owner, kind, t, dead);
      assert measurements[at].owner == owner && reading == Reading(measurements[at].value, kind);
    }
  }
}
