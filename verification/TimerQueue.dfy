/** The queue of timeouts, by which the controller tells transports that have fallen idle. */
module TimerQueue {

  datatype Callback = Empty | Call(id: nat)

  /** A stream, named by its owner, with the callback that runs when its time has come. */
  datatype Event = Event(callback: Callback, stream: nat, expiry: int)

  predicate Sorted(q: seq<Event>) {
    forall i, j :: 0 <= i < j < |q| ==> q[i].expiry <= q[j].expiry
  }

  predicate Unique(q: seq<Event>) {
    forall i, j :: 0 <= i < j < |q| ==> q[i].stream != q[j].stream
  }

  predicate Ordered(q: seq<Event>) {
    Sorted(q) && Unique(q)
  }

  // ---------------------------------------------------------------------------
  // Arming a timer

  /** The queue after `addEvent`: an entry of the stream that comes up is carried along, and keeps its callback. */
  function Add(q: seq<Event>, stream: nat, time: int, callback: Callback): seq<Event> {
    if q == [] then [Event(callback, stream, time)]
    else if q[0].stream == stream then Carry(q[0], q[1..], time)
    else if time < q[0].expiry then [Event(callback, stream, time)] + q
    else [q[0]] + Add(q[1..], stream, time, callback)
  }

  /** `e` has just come up. */
  function Carry(e: Event, rest: seq<Event>, time: int): seq<Event>
    decreases |rest|, 1
  {
    if time < e.expiry then [e.(expiry := time)] + rest else Move(e, rest, time)
  }

  /** `e` has been carried to just before `rest`. */
  function Move(e: Event, rest: seq<Event>, time: int): seq<Event>
    decreases |rest|, 0
  {
    if rest == [] then [e.(expiry := time)]
    else if rest[0].stream == e.stream then [e] + Carry(rest[0], rest[1..], time)
    else if time < rest[0].expiry then [rest[0], e.(expiry := time)] + rest[1..]
    else [rest[0]] + Move(e, rest[1..], time)
  }

  /** All entries are due no later than `time`. */
  predicate AllBy(q: seq<Event>, time: int) {
    forall i :: 0 <= i < |q| ==> q[i].expiry <= time
  }

  predicate NoneOf(q: seq<Event>, stream: nat) {
    forall i :: 0 <= i < |q| ==> q[i].stream != stream
  }

  /** When a new time for a stream that is queued keeps the queue in order: nothing due later precedes the entry,
      and either the entry itself is brought forward or nothing due later follows it. */
  predicate Safe(q: seq<Event>, stream: nat, time: int) {
    forall m :: 0 <= m < |q| && q[m].stream == stream ==> SafeAt(q, m, time)
  }

  predicate SafeAt(q: seq<Event>, m: nat, time: int)
    requires m < |q|
  {
    AllBy(q[..m], time) && (time < q[m].expiry || AllBy(q[m + 1..], time))
  }

  /** The entries, by stream. */
  function Table(q: seq<Event>): map<nat, Event> {
    if q == [] then map[] else Table(q[1..])[q[0].stream := q[0]]
  }

  function KeptCallback(t: map<nat, Event>, stream: nat, callback: Callback): Callback {
    if stream in t then t[stream].callback else callback
  }

  function Put(t: map<nat, Event>, stream: nat, time: int, callback: Callback): map<nat, Event> {
    t[stream := Event(KeptCallback(t, stream, callback), stream, time)]
  }

  lemma {:induction false} TableHas(q: seq<Event>, stream: nat)
    ensures stream in Table(q) <==> !NoneOf(q, stream)
    ensures stream in Table(q) ==> Table(q)[stream] in q && Table(q)[stream].stream == stream
  {
    if q != [] {
      TableHas(q[1..], stream);
      assert q == [q[0]] + q[1..];
    }
  }

  lemma SortedCons(e: Event, q: seq<Event>)
    ensures Sorted([e] + q) <==> Sorted(q) && forall i :: 0 <= i < |q| ==> e.expiry <= q[i].expiry
  {
    var r := [e] + q;
    if Sorted(r) {
      forall i, j | 0 <= i < j < |q| ensures q[i].expiry <= q[j].expiry {
        assert r[i + 1] == q[i] && r[j + 1] == q[j];
      }
      forall i | 0 <= i < |q| ensures e.expiry <= q[i].expiry {
        assert r[0] == e && r[i + 1] == q[i];
      }
    }
  }

  lemma UniqueCons(e: Event, q: seq<Event>)
    ensures Unique([e] + q) <==> Unique(q) && NoneOf(q, e.stream)
  {
    var r := [e] + q;
    if Unique(r) {
      forall i, j | 0 <= i < j < |q| ensures q[i].stream != q[j].stream {
        assert r[i + 1] == q[i] && r[j + 1] == q[j];
      }
      forall i | 0 <= i < |q| ensures q[i].stream != e.stream {
        assert r[0] == e && r[i + 1] == q[i];
      }
    }
  }

  /** What a carried entry turns into, when no other entry is of its stream. */
  lemma {:induction false} MoveIs(e: Event, rest: seq<Event>, time: int)
    requires NoneOf(rest, e.stream)
    ensures AllBy(rest, time) ==> Move(e, rest, time) == rest + [e.(expiry := time)]
    ensures !AllBy(rest, time) ==> !Sorted(Move(e, rest, time))
  {
    if rest != [] {
      var r, tail := rest[0], rest[1..];
      assert rest == [r] + tail;
      if time < r.expiry {
        var out := [r, e.(expiry := time)] + tail;
        assert out[0].expiry > out[1].expiry;
      } else {
        MoveIs(e, tail, time);
        SortedCons(r, Move(e, tail, time));
        assert AllBy(rest, time) <==> AllBy(tail, time);
      }
    }
  }

  lemma TableCons(e: Event, q: seq<Event>)
    ensures Table([e] + q) == Table(q)[e.stream := e]
  {
    assert ([e] + q)[1..] == q;
  }

  lemma {:induction false} MoveTable(e: Event, rest: seq<Event>, time: int)
    requires NoneOf(rest, e.stream)
    ensures Table(Move(e, rest, time)) == Table(rest)[e.stream := e.(expiry := time)]
  {
    hide Table;
    var e' := e.(expiry := time);
    if rest == [] {
      TableCons(e', []);
      assert [e'] + [] == [e'];
      return;
    }
    var r, tail := rest[0], rest[1..];
    assert rest == [r] + tail;
    TableCons(r, tail);
    if time < r.expiry {
      TableCons(e', tail);
      TableCons(r, [e'] + tail);
      assert [r, e'] + tail == [r] + ([e'] + tail);
    } else {
      MoveTable(e, tail, time);
      TableCons(r, Move(e, tail, time));
    }
  }

  /** Entries of the result are entries of the queue, but for the stream's own, which has the new time. */
  predicate From(out: seq<Event>, q: seq<Event>, stream: nat, time: int) {
    forall i :: 0 <= i < |out| ==> out[i] in q || (out[i].stream == stream && out[i].expiry == time)
  }

  lemma FromCons(x: Event, out: seq<Event>, q: seq<Event>, stream: nat, time: int)
    requires From(out, q, stream, time)
    ensures From([x] + out, [x] + q, stream, time)
  {
  }

  lemma {:induction false} MoveMembers(e: Event, rest: seq<Event>, time: int)
    ensures From(Move(e, rest, time), [e] + rest, e.stream, time)
    decreases |rest|, 0
  {
    if rest != [] {
      var r, tail := rest[0], rest[1..];
      assert rest == [r] + tail;
      if r.stream == e.stream {
        CarryMembers(r, tail, time);
        FromCons(e, Carry(r, tail, time), rest, e.stream, time);
      } else if time >= r.expiry {
        MoveMembers(e, tail, time);
        FromCons(r, Move(e, tail, time), [e] + tail, e.stream, time);
      }
    }
  }

  lemma {:induction false} CarryMembers(e: Event, rest: seq<Event>, time: int)
    ensures From(Carry(e, rest, time), [e] + rest, e.stream, time)
    decreases |rest|, 1
  {
    MoveMembers(e, rest, time);
  }

  lemma {:induction false} AddMembers(q: seq<Event>, stream: nat, time: int, callback: Callback)
    ensures From(Add(q, stream, time, callback), q, stream, time)
  {
    if q != [] {
      var r, tail := q[0], q[1..];
      assert q == [r] + tail;
      if r.stream == stream {
        CarryMembers(r, tail, time);
      } else if time >= r.expiry {
        AddMembers(tail, stream, time, callback);
        FromCons(r, Add(tail, stream, time, callback), tail, stream, time);
      }
    }
  }

  lemma SafeAtCons(e: Event, q: seq<Event>, m: nat, time: int)
    requires e.expiry <= time && m < |q|
    ensures SafeAt([e] + q, m + 1, time) <==> SafeAt(q, m, time)
  {
    hide AllBy;
    var r := [e] + q;
    assert r[..m + 1] == [e] + q[..m];
    assert r[m + 2..] == q[m + 1..];
    AllByCons(e, q[..m], time);
  }

  lemma SafeCons(e: Event, q: seq<Event>, stream: nat, time: int)
    requires e.stream != stream && e.expiry <= time
    ensures Safe([e] + q, stream, time) <==> Safe(q, stream, time)
  {
    hide SafeAt;
    var r := [e] + q;
    forall m | 0 <= m < |q| ensures r[m + 1] == q[m] && (SafeAt(r, m + 1, time) <==> SafeAt(q, m, time)) {
      SafeAtCons(e, q, m, time);
    }
    if Safe(q, stream, time) {
      forall m | 0 <= m < |r| && r[m].stream == stream ensures SafeAt(r, m, time) {
        assert r[m - 1 + 1] == q[m - 1] && SafeAt(q, m - 1, time);
      }
    }
  }

  lemma AllByCons(e: Event, q: seq<Event>, time: int)
    ensures AllBy([e] + q, time) <==> e.expiry <= time && AllBy(q, time)
  {
    var r := [e] + q;
    if AllBy(r, time) {
      assert r[0] == e;
      assert forall i :: 0 <= i < |q| ==> r[i + 1] == q[i];
    }
  }

  lemma OrderedCons(e: Event, q: seq<Event>)
    ensures Ordered([e] + q) <==> Ordered(q) && NoneOf(q, e.stream) && forall i :: 0 <= i < |q| ==> e.expiry <= q[i].expiry
  {
    SortedCons(e, q);
    UniqueCons(e, q);
  }

  /** A new time for a stream keeps the queue in order, with one entry a stream, exactly when it is safe. */
  lemma {:induction false} AddIsOrderedIff(q: seq<Event>, stream: nat, time: int, callback: Callback)
    requires Ordered(q)
    ensures Ordered(Add(q, stream, time, callback)) <==> Safe(q, stream, time)
  {
    hide Ordered, Safe, NoneOf, AllBy, From;
    if q == [] {
      assert Safe(q, stream, time) by { SafeNil(stream, time); }
      assert Ordered([Event(callback, stream, time)]) by { OrderedOne(Event(callback, stream, time)); }
      return;
    }
    var r, tail := q[0], q[1..];
    assert q == [r] + tail;
    OrderedCons(r, tail);
    if r.stream == stream {
      SafeFirst(r, tail, time);
      CarryIsOrderedIff(r, tail, time);
    } else if time < r.expiry {
      OrderedCons(Event(callback, stream, time), q);
      SafeBefore(r, tail, stream, time);
    } else {
      AddIsOrderedIff(tail, stream, time, callback);
      AddMembers(tail, stream, time, callback);
      SafeCons(r, tail, stream, time);
      KeptInFront(r, Add(tail, stream, time, callback), tail, stream, time);
      OrderedCons(r, Add(tail, stream, time, callback));
    }
  }

  lemma SafeNil(stream: nat, time: int)
    ensures Safe([], stream, time)
  {
  }

  lemma OrderedOne(e: Event)
    ensures Ordered([e])
  {
  }

  lemma SafeFirst(e: Event, q: seq<Event>, time: int)
    requires NoneOf(q, e.stream)
    ensures Safe([e] + q, e.stream, time) <==> time < e.expiry || AllBy(q, time)
  {
    var r := [e] + q;
    assert r[0] == e && r[1..] == q;
    assert forall m :: 1 <= m < |r| ==> r[m] == q[m - 1];
  }

  lemma SafeBefore(e: Event, q: seq<Event>, stream: nat, time: int)
    requires e.stream != stream && time < e.expiry
    ensures Safe([e] + q, stream, time) <==> NoneOf([e] + q, stream)
  {
    var r := [e] + q;
    forall m | 0 < m < |r| ensures !AllBy(r[..m], time) {
      assert r[..m][0] == e;
    }
  }

  lemma KeptInFront(e: Event, out: seq<Event>, q: seq<Event>, stream: nat, time: int)
    requires From(out, q, stream, time) && e.expiry <= time && e.stream != stream && NoneOf(q, e.stream)
    requires forall i :: 0 <= i < |q| ==> e.expiry <= q[i].expiry
    ensures NoneOf(out, e.stream) && forall i :: 0 <= i < |out| ==> e.expiry <= out[i].expiry
  {
    forall i | 0 <= i < |out| ensures out[i].stream != e.stream && e.expiry <= out[i].expiry {
      if out[i] in q {
        var k :| 0 <= k < |q| && q[k] == out[i];
      }
    }
  }

  lemma CarryIsOrderedIff(e: Event, rest: seq<Event>, time: int)
    requires Ordered([e] + rest)
    ensures Ordered(Carry(e, rest, time)) <==> time < e.expiry || AllBy(rest, time)
  {
    OrderedCons(e, rest);
    if time < e.expiry {
      OrderedCons(e.(expiry := time), rest);
    } else {
      MoveIs(e, rest, time);
    }
  }

  /** A safe new time is a plain update of the table: a stream that is queued keeps its callback. */
  lemma {:induction false} AddUpdatesTable(q: seq<Event>, stream: nat, time: int, callback: Callback)
    requires Ordered(q) && Safe(q, stream, time)
    ensures Table(Add(q, stream, time, callback)) == Put(Table(q), stream, time, callback)
  {
    hide Ordered, Safe, NoneOf, AllBy, Table;
    var e := Event(callback, stream, time);
    if q == [] {
      TableCons(e, []);
      assert [e] + [] == [e];
      TableHas([], stream);
      assert NoneOf([], stream) by { NoneOfNil(stream); }
      return;
    }
    var r, tail := q[0], q[1..];
    assert q == [r] + tail;
    OrderedCons(r, tail);
    TableCons(r, tail);
    if r.stream == stream {
      CarryTable(r, tail, time);
    } else if time < r.expiry {
      SafeBefore(r, tail, stream, time);
      TableHas(q, stream);
      TableCons(e, q);
    } else {
      SafeCons(r, tail, stream, time);
      AddUpdatesTable(tail, stream, time, callback);
      TableCons(r, Add(tail, stream, time, callback));
      assert Table(q) == Table(tail)[r.stream := r];
      assert KeptCallback(Table(q), stream, callback) == KeptCallback(Table(tail), stream, callback);
    }
  }

  lemma NoneOfNil(stream: nat)
    ensures NoneOf([], stream)
  {
  }

  lemma CarryTable(e: Event, rest: seq<Event>, time: int)
    requires NoneOf(rest, e.stream)
    ensures Table(Carry(e, rest, time)) == Table(rest)[e.stream := e.(expiry := time)]
  {
    hide Table, NoneOf;
    if time < e.expiry {
      TableCons(e.(expiry := time), rest);
    } else {
      MoveTable(e, rest, time);
    }
  }

  /** The entries of the other streams, in order. */
  function Others(q: seq<Event>, stream: nat): seq<Event> {
    if q == [] then []
    else if q[0].stream == stream then Others(q[1..], stream)
    else [q[0]] + Others(q[1..], stream)
  }

  lemma {:induction false} OthersOfNone(q: seq<Event>, stream: nat)
    requires NoneOf(q, stream)
    ensures Others(q, stream) == q
  {
    if q != [] {
      OthersOfNone(q[1..], stream);
    }
  }

  /** A time no earlier than all others goes to the end, and the others stay as they are. */
  lemma {:induction false} AddAtEnd(q: seq<Event>, stream: nat, time: int, callback: Callback)
    requires Unique(q) && AllBy(q, time)
    ensures Add(q, stream, time, callback) == Others(q, stream) + [Event(KeptCallback(Table(q), stream, callback), stream, time)]
  {
    hide Table;
    var t := Table(q);
    if q == [] {
      TableHas([], stream);
    } else {
      var r, tail := q[0], q[1..];
      assert q == [r] + tail;
      UniqueCons(r, tail);
      TableCons(r, tail);
      if r.stream == stream {
        MoveIs(r, tail, time);
        OthersOfNone(tail, stream);
      } else {
        AddAtEnd(tail, stream, time, callback);
      }
    }
  }

  lemma AllByIsSafe(q: seq<Event>, stream: nat, time: int)
    requires AllBy(q, time)
    ensures Safe(q, stream, time)
  {
  }

  /** What the caller must respect: a stream that is moved between two others ends up behind the later one, where
      the sweep at a time in between does not find it although it is due. */
  lemma MovedBetweenIsLate(a: nat, b: nat, x: Callback, y: Callback, z: Callback)
    requires a != b
    ensures var q := [Event(x, a, 10), Event(y, b, 30)];
      var q' := Add(q, a, 20, z);
      && Ordered(q) && q' == [Event(y, b, 30), Event(x, a, 20)] && !Ordered(q')
      && Due(q', 25) == 0 && q'[1].expiry <= 25
  {
    var q := [Event(x, a, 10), Event(y, b, 30)];
    assert q[1..] == [Event(y, b, 30)];
    assert Move(q[0], q[1..], 20) == [Event(y, b, 30), Event(x, a, 20)] + q[1..][1..];
    var q' := Add(q, a, 20, z);
    assert q' == [Event(y, b, 30), Event(x, a, 20)];
    assert q'[0].expiry > q'[1].expiry;
  }

  // ---------------------------------------------------------------------------
  // Sweeping

  /** The length of the leading run of entries that are due. */
  function Due(q: seq<Event>, now: int): (n: nat)
    ensures n <= |q| && AllBy(q[..n], now) && (n < |q| ==> q[n].expiry > now)
  {
    if q == [] || q[0].expiry > now then 0
    else
      var n := Due(q[1..], now);
      assert q[..n + 1] == [q[0]] + q[1..][..n];
      n + 1
  }

  /** The callbacks that are run, in order; empty ones are skipped. */
  function Calls(q: seq<Event>): seq<nat> {
    if q == [] then [] else Calls(q[..|q| - 1]) + (if q[|q| - 1].callback.Call? then [q[|q| - 1].callback.id] else [])
  }

  predicate Expired(e: Event, now: int) {
    e.expiry <= now
  }

  /** A sweep takes exactly the entries that are due, if and only if none of them is behind one that is not. */
  lemma SweepIsExactIff(q: seq<Event>, now: int)
    ensures (forall i :: Due(q, now) <= i < |q| ==> !Expired(q[i], now))
      <==> (forall i, j :: 0 <= i < j < |q| && !Expired(q[i], now) ==> !Expired(q[j], now))
    ensures Sorted(q) ==> forall i :: Due(q, now) <= i < |q| ==> !Expired(q[i], now)
  {
    var n := Due(q, now);
    forall i | 0 <= i < n ensures Expired(q[i], now) {
      assert q[..n][i] == q[i];
    }
    if forall i, j :: 0 <= i < j < |q| && !Expired(q[i], now) ==> !Expired(q[j], now) {
      forall i | n <= i < |q| ensures !Expired(q[i], now) {
        assert !Expired(q[n], now);
      }
    }
  }

  function DuePart(t: map<nat, Event>, now: int): map<nat, Event> {
    map k | k in t && Expired(t[k], now) :: t[k]
  }

  function RestPart(t: map<nat, Event>, now: int): map<nat, Event> {
    map k | k in t && !Expired(t[k], now) :: t[k]
  }

  lemma {:induction false} TableAt(q: seq<Event>, i: nat)
    requires Unique(q) && i < |q|
    ensures q[i].stream in Table(q) && Table(q)[q[i].stream] == q[i]
  {
    if i > 0 {
      assert q[1..][i - 1] == q[i];
      TableAt(q[1..], i - 1);
    }
  }

  /** A part of the queue that holds just the entries that satisfy the test has just those in its table. */
  lemma PartTable(q: seq<Event>, lo: nat, hi: nat)
    requires Unique(q) && lo <= hi <= |q|
    ensures forall k :: k in Table(q[lo..hi]) ==> k in Table(q) && Table(q)[k] == Table(q[lo..hi])[k]
    ensures forall k :: k in Table(q[lo..hi]) ==> exists i :: lo <= i < hi && Table(q)[k] == q[i]
    ensures forall i :: lo <= i < hi ==> q[i].stream in Table(q[lo..hi])
  {
    hide Table;
    var part := q[lo..hi];
    forall k | k in Table(part) ensures k in Table(q) && Table(q)[k] == Table(part)[k] && exists i :: lo <= i < hi && Table(q)[k] == q[i] {
      TableHas(part, k);
      var i :| 0 <= i < |part| && part[i] == Table(part)[k];
      assert q[lo + i] == part[i];
      TableAt(q, lo + i);
    }
    forall i | lo <= i < hi ensures q[i].stream in Table(part) {
      assert part[i - lo] == q[i];
      TableHas(part, q[i].stream);
    }
  }

  lemma SplitTable(q: seq<Event>, n: nat, now: int)
    requires Unique(q) && n <= |q|
    requires forall i :: 0 <= i < |q| ==> (Expired(q[i], now) <==> i < n)
    ensures Table(q[0..n]) == DuePart(Table(q), now)
    ensures Table(q[n..|q|]) == RestPart(Table(q), now)
  {
    hide Table, Unique, Expired;
    PartTable(q, 0, n);
    PartTable(q, n, |q|);
    forall k | k in Table(q) ensures exists i :: 0 <= i < |q| && Table(q)[k] == q[i] && q[i].stream == k {
      TableHas(q, k);
    }
    assert Table(q[0..n]).Keys == DuePart(Table(q), now).Keys;
    assert Table(q[n..|q|]).Keys == RestPart(Table(q), now).Keys;
  }

  /** A sweep splits the table into what is due and what is not. */
  lemma SweepSplitsTable(q: seq<Event>, now: int)
    requires Ordered(q)
    ensures var n := Due(q, now);
      && Ordered(q[..n]) && Table(q[..n]) == DuePart(Table(q), now)
      && Ordered(q[n..]) && Table(q[n..]) == RestPart(Table(q), now)
  {
    hide Table, DuePart, RestPart;
    var n := Due(q, now);
    SweepIsExactIff(q, now);
    forall i | 0 <= i < n ensures Expired(q[i], now) {
      assert q[..n][i] == q[i];
    }
    SplitTable(q, n, now);
    assert q[0..n] == q[..n] && q[n..|q|] == q[n..];
  }

  // ---------------------------------------------------------------------------
  // Runs

  datatype Op = Arm(stream: nat, time: int, callback: Callback) | Sweep(now: int)

  /** The queue, and what each sweep so far has taken. */
  datatype Run = Run(queue: seq<Event>, fired: seq<seq<Event>>)

  function Exec(ops: seq<Op>): Run {
    if ops == [] then Run([], [])
    else
      var run := Exec(ops[..|ops| - 1]);
      match ops[|ops| - 1]
      case Arm(stream, time, callback) => run.(queue := Add(run.queue, stream, time, callback))
      case Sweep(now) => var n := Due(run.queue, now); Run(run.queue[n..], run.fired + [run.queue[..n]])
  }

  /** The same run on a plain table of timers, one a stream. */
  datatype TableRun = TableRun(table: map<nat, Event>, fired: seq<map<nat, Event>>)

  function TableExec(ops: seq<Op>): TableRun {
    if ops == [] then TableRun(map[], [])
    else
      var run := TableExec(ops[..|ops| - 1]);
      match ops[|ops| - 1]
      case Arm(stream, time, callback) => run.(table := Put(run.table, stream, time, callback))
      case Sweep(now) => TableRun(RestPart(run.table, now), run.fired + [DuePart(run.table, now)])
  }

  /** Timers are armed with times that never go back. */
  predicate Monotone(ops: seq<Op>) {
    forall i, j :: 0 <= i < j < |ops| && ops[i].Arm? && ops[j].Arm? ==> ops[i].time <= ops[j].time
  }

  predicate ArmedBy(ops: seq<Op>, time: int) {
    forall i :: 0 <= i < |ops| && ops[i].Arm? ==> ops[i].time <= time
  }

  lemma {:induction false} QueueIsBounded(ops: seq<Op>, time: int)
    requires ArmedBy(ops, time)
    ensures AllBy(Exec(ops).queue, time)
  {
    if ops != [] {
      var last, q := ops[|ops| - 1], Exec(ops[..|ops| - 1]).queue;
      QueueIsBounded(ops[..|ops| - 1], time);
      if last.Arm? {
        AddMembers(q, last.stream, last.time, last.callback);
      }
    }
  }

  predicate Refines(run: Run, ref: TableRun) {
    && Ordered(run.queue) && Table(run.queue) == ref.table && |run.fired| == |ref.fired|
    && forall i :: 0 <= i < |run.fired| ==> Ordered(run.fired[i]) && Table(run.fired[i]) == ref.fired[i]
  }

  /** Whatever the order of operations, as long as times do not go back: the queue stays sorted with one entry a
      stream and holds the table of timers, and every sweep takes the timers that are due, in order of expiry. */
  lemma {:induction false} RunsRefineTable(ops: seq<Op>)
    requires Monotone(ops)
    ensures Refines(Exec(ops), TableExec(ops))
  {
    hide Table, Add, Put, DuePart, RestPart, Ordered, Safe, Due;
    if ops == [] {
      assert Ordered([]) && Table([]) == map[] by { EmptyQueue(); }
      return;
    }
    var m := |ops| - 1;
    var q := Exec(ops[..m]).queue;
    RunsRefineTable(ops[..m]);
    match ops[m]
    case Arm(stream, time, callback) =>
      QueueIsBounded(ops[..m], time);
      AllByIsSafe(q, stream, time);
      AddIsOrderedIff(q, stream, time, callback);
      AddUpdatesTable(q, stream, time, callback);
    case Sweep(now) =>
      SweepSplitsTable(q, now);
  }

  lemma EmptyQueue()
    ensures Ordered([]) && Table([]) == map[]
  {
  }

  // ---------------------------------------------------------------------------
  // The queue itself

  function Swap(q: seq<Event>, i: nat, j: nat): seq<Event>
    requires i < |q| && j < |q|
  {
    q[i := q[j]][j := q[i]]
  }

  /** The search has come to `i` and has not met the stream. */
  predicate Searching(goal: seq<Event>, q: seq<Event>, i: nat, stream: nat, time: int, callback: Callback) {
    i <= |q| && goal == q[..i] + Add(q[i..], stream, time, callback)
  }

  /** The stream's entry has been carried to just before `i`. */
  predicate Carrying(goal: seq<Event>, q: seq<Event>, i: nat, stream: nat, time: int) {
    0 < i <= |q| && q[i - 1].stream == stream && goal == q[..i - 1] + Move(q[i - 1], q[i..], time)
  }

  /** One round of the search: it ends at an entry that is due later, and otherwise goes on. */
  lemma SearchStep(goal: seq<Event>, q: seq<Event>, i: nat, stream: nat, time: int, callback: Callback)
    requires i < |q| && Searching(goal, q, i, stream, time, callback)
    ensures var x := q[i];
      if x.stream == stream then (if time < x.expiry then goal == q[i := x.(expiry := time)] else Carrying(goal, q, i + 1, stream, time))
      else (if time < x.expiry then goal == q[..i] + [Event(callback, stream, time)] + q[i..] else Searching(goal, q, i + 1, stream, time, callback))
  {
    var rest := q[i..];
    assert rest[0] == q[i] && rest[1..] == q[i + 1..];
    assert q[..i + 1] == q[..i] + [q[i]];
  }

  lemma CarryStep(goal: seq<Event>, q: seq<Event>, i: nat, stream: nat, time: int)
    requires i < |q| && Carrying(goal, q, i, stream, time)
    ensures var x, r := q[i], Swap(q, i - 1, i);
      if x.stream == stream then (if time < x.expiry then goal == q[i := x.(expiry := time)] else Carrying(goal, q, i + 1, stream, time))
      else (if time < x.expiry then goal == r[i := r[i].(expiry := time)] else Carrying(goal, r, i + 1, stream, time))
  {
    var rest, r := q[i..], Swap(q, i - 1, i);
    assert rest[0] == q[i] && rest[1..] == q[i + 1..];
    if q[i].stream == stream {
      var next := Carry(q[i], q[i + 1..], time);
      assert goal == q[..i - 1] + ([q[i - 1]] + next);
      assert q[..i - 1] + ([q[i - 1]] + next) == q[..i] + next;
    } else {
      assert r[..i] == q[..i - 1] + [q[i]];
      assert r[i] == q[i - 1] && r[i + 1..] == q[i + 1..];
    }
  }

  class Queue {
    var events: seq<Event>

    constructor ()
      ensures events == []
    {
      events := [];
    }

    /** `addEvent`. */
    method AddEvent(stream: nat, time: int, callback: Callback)
      modifies this
      ensures events == Add(old(events), stream, time, callback)
    {
      hide Add, Move, Searching, Carrying;
      ghost var goal := Add(events, stream, time, callback);
      var end := |events|;
      var found := end;
      var i := 0;
      assert Searching(goal, events, 0, stream, time, callback) by { Starting(events, stream, time, callback); }
      while i < end
        invariant 0 <= i <= end == |events|
        invariant found == end || (i > 0 && found == i - 1)
        invariant if found == end then Searching(goal, events, i, stream, time, callback) else Carrying(goal, events, i, stream, time)
      {
        if found == end {
          SearchStep(goal, events, i, stream, time, callback);
        } else {
          CarryStep(goal, events, i, stream, time);
        }
        if events[i].stream == stream {
          found := i;
          assert Swap(events, i, i) == events;
        }
        if time < events[i].expiry {
          if found != end {
            events := Swap(events, found, i);
            events := events[i := events[i].(expiry := time)];
          } else {
            events := events[..i] + [Event(callback, stream, time)] + events[i..];
          }
          return;
        }
        if found != end {
          events := Swap(events, found, i);
          found := i;
        }
        i := i + 1;
      }
      Ending(goal, events, stream, time, callback);
      if found == end {
        events := events + [Event(callback, stream, time)];
      } else {
        events := events[found := events[found].(expiry := time)];
      }
    }

    /** `processEvents` at time `now`: how many entries were due, and the callbacks that are run. */
    method ProcessEvents(now: int) returns (count: nat, calls: seq<nat>)
      modifies this
      ensures var n := Due(old(events), now);
        count == n && events == old(events)[n..] && calls == Calls(old(events)[..n])
    {
      var live := 0;
      assert events[0..] == events;
      while live < |events| && events[live].expiry <= now
        invariant 0 <= live <= |events| && events == old(events)
        invariant Due(events, now) == live + Due(events[live..], now)
      {
        assert events[live..][1..] == events[live + 1..];
        live := live + 1;
      }
      count, calls := 0, [];
      if live == 0 {
        assert events[..0] == [];
        return;
      }
      while count < live
        invariant 0 <= count <= live <= |events| && events == old(events) && calls == Calls(events[..count])
      {
        assert events[..count + 1][..count] == events[..count];
        if events[count].callback.Call? {
          calls := calls + [events[count].callback.id];
        }
        count := count + 1;
      }
      events := events[live..];
    }
  }

  lemma Starting(q: seq<Event>, stream: nat, time: int, callback: Callback)
    ensures Searching(Add(q, stream, time, callback), q, 0, stream, time, callback)
  {
    assert q[0..] == q && q[..0] == [];
  }

  lemma Ending(goal: seq<Event>, q: seq<Event>, stream: nat, time: int, callback: Callback)
    ensures Searching(goal, q, |q|, stream, time, callback) ==> goal == q + [Event(callback, stream, time)]
    ensures Carrying(goal, q, |q|, stream, time) ==> goal == q[|q| - 1 := q[|q| - 1].(expiry := time)]
  {
    assert q[|q|..] == [] && q[..|q|] == q;
  }
}
