/** The interest list of the event loop and the poll set that mirrors it. */
module Triggers {
  import opened Search

  /** What the program waits for on a descriptor. */
  datatype Interest = Interest(fd: int, mask: bv32)

  /** What `poll` is told: its masks have half the width. */
  datatype PollFd = PollFd(fd: int, events: bv16, revents: bv16)

  function Low(mask: bv32): bv16 {
    (mask & 0xFFFF) as bv16
  }

  /** The masks that `poll` knows lose nothing. */
  predicate PollSized(mask: bv32) {
    mask & 0xFFFF_0000 == 0
  }

  lemma LowIsExactIff(mask: bv32)
    ensures (Low(mask) as bv32 == mask) <==> PollSized(mask)
  {
  }

  function With(mask: bv32, trigger: bv32): bv32 {
    mask | trigger
  }

  function Without(mask: bv32, trigger: bv32): bv32 {
    mask & !trigger
  }

  /** Poll-sized masks stay so, whatever is set and cleared. */
  lemma MasksStayPollSized(mask: bv32, trigger: bv32)
    requires PollSized(mask)
    ensures PollSized(trigger) ==> PollSized(With(mask, trigger))
    ensures PollSized(Without(mask, trigger))
  {
  }

  function ListFds(list: seq<Interest>): (fds: seq<int>)
    ensures |fds| == |list| && forall i :: 0 <= i < |list| ==> fds[i] == list[i].fd
  {
    seq(|list|, i requires 0 <= i < |list| => list[i].fd)
  }

  function PollFds(events: seq<PollFd>): (fds: seq<int>)
    ensures |fds| == |events| && forall i :: 0 <= i < |events| ==> fds[i] == events[i].fd
  {
    seq(|events|, i requires 0 <= i < |events| => events[i].fd)
  }

  function Inserted<T>(s: seq<T>, n: nat, x: T): seq<T>
    requires n <= |s|
  {
    s[..n] + [x] + s[n..]
  }

  function Erased<T>(s: seq<T>, n: nat): seq<T>
    requires n < |s|
  {
    s[..n] + s[n + 1..]
  }

  class Poller {
    var events: seq<PollFd>

    constructor ()
      ensures events == []
    {
      events := [];
    }

    /** `_add`: the new size, or -1 if the descriptor is there already. */
    method Add(fd: int, event: PollFd) returns (r: int, ghost n: nat)
      requires Ascending(PollFds(events)) && event.fd == fd
      modifies this
      ensures IsLowerBound(PollFds(old(events)), fd, n)
      ensures if fd in PollFds(old(events)) then r == -1 && events == old(events)
              else r == |events| && events == Inserted(old(events), n, event)
    {
      var at := LowerBound(PollFds(events), event.fd);
      n := at;
      if at == |events| || events[at].fd != fd {
        events := events[..at] + [event] + events[at..];
        return |events|, n;
      }
      return -1, n;
    }

    /** `_update`: gives a descriptor that is there a new mask. */
    method Update(fd: int, event: PollFd) returns (r: int, ghost n: nat)
      requires Ascending(PollFds(events)) && event.fd == fd
      modifies this
      ensures IsLowerBound(PollFds(old(events)), fd, n)
      ensures if fd in PollFds(old(events)) then n < |old(events)| && r == |events| && events == old(events)[n := old(events)[n].(events := event.events)]
              else r == -1 && events == old(events)
    {
      var at := LowerBound(PollFds(events), event.fd);
      n := at;
      if at == |events| || events[at].fd != fd {
        return -1, n;
      }
      events := events[at := events[at].(events := event.events)];
      return |events|, n;
    }

    /** `_del`. */
    method Del(fd: int) returns (r: int, ghost n: nat)
      requires Ascending(PollFds(events))
      modifies this
      ensures IsLowerBound(PollFds(old(events)), fd, n)
      ensures if fd in PollFds(old(events)) then n < |old(events)| && r == |events| && events == Erased(old(events), n)
              else r == -1 && events == old(events)
    {
      var at := LowerBound(PollFds(events), fd);
      n := at;
      if at == |events| || events[at].fd != fd {
        return -1, n;
      }
      events := events[..at] + events[at + 1..];
      return |events|, n;
    }
  }

  // ---------------------------------------------------------------------------
  // The mirror

  /** Same descriptors at the same places, and the masks that fit. */
  predicate Mirrors(list: seq<Interest>, events: seq<PollFd>) {
    |list| == |events| && forall i :: 0 <= i < |list| ==> events[i].fd == list[i].fd && events[i].events == Low(list[i].mask)
  }

  /** The list stands for a map from descriptors to masks. */
  predicate Stands(list: seq<Interest>, table: map<int, bv32>) {
    && (forall i :: 0 <= i < |list| ==> list[i].fd in table && table[list[i].fd] == list[i].mask)
    && (forall fd :: fd in table ==> fd in ListFds(list))
  }

  predicate Agree(list: seq<Interest>, events: seq<PollFd>, table: map<int, bv32>) {
    Ascending(ListFds(list)) && Mirrors(list, events) && Stands(list, table)
  }

  predicate Covers(mask: bv32, trigger: bv32) {
    mask & trigger == trigger
  }

  /** Setting is union. */
  function On(table: map<int, bv32>, fd: int, trigger: bv32): map<int, bv32> {
    table[fd := if fd in table then With(table[fd], trigger) else trigger]
  }

  /** Clearing is difference, and removal when nothing is left. */
  function Off(table: map<int, bv32>, fd: int, trigger: bv32): map<int, bv32> {
    if fd !in table then table
    else if Without(table[fd], trigger) == 0 then table - {fd}
    else table[fd := Without(table[fd], trigger)]
  }

  predicate AllPollSized(table: map<int, bv32>) {
    forall fd :: fd in table ==> PollSized(table[fd])
  }

  /** The very same masks, not only the part of them that fits. */
  predicate SameMasks(list: seq<Interest>, events: seq<PollFd>) {
    |list| == |events| && forall i :: 0 <= i < |list| ==> events[i].events as bv32 == list[i].mask
  }

  /** Poll-sized tables stay so; while they do, the vectors hold the very same masks. */
  lemma TablesStayPollSized(table: map<int, bv32>, fd: int, trigger: bv32)
    requires AllPollSized(table)
    ensures PollSized(trigger) ==> AllPollSized(On(table, fd, trigger))
    ensures AllPollSized(Off(table, fd, trigger))
  {
    hide PollSized, With, Without;
    if fd in table {
      MasksStayPollSized(table[fd], trigger);
    }
  }

  lemma MasksAreExact(list: seq<Interest>, events: seq<PollFd>, table: map<int, bv32>)
    requires Agree(list, events, table)
    ensures AllPollSized(table) ==> SameMasks(list, events)
  {
    hide Low, PollSized;
    if AllPollSized(table) {
      forall i | 0 <= i < |list| ensures events[i].events as bv32 == list[i].mask {
        LowIsExactIff(list[i].mask);
      }
    }
  }

  lemma SameFds(list: seq<Interest>, events: seq<PollFd>)
    requires Mirrors(list, events)
    ensures PollFds(events) == ListFds(list)
  {
  }

  lemma InsertStrict(list: seq<Interest>, n: nat, e: Interest)
    requires Ascending(ListFds(list)) && IsLowerBound(ListFds(list), e.fd, n) && e.fd !in ListFds(list)
    ensures Ascending(ListFds(Inserted(list, n, e)))
  {
    var fds := ListFds(list);
    assert ListFds(Inserted(list, n, e)) == fds[..n] + [e.fd] + fds[n..];
    assert forall i :: 0 <= i < |fds| ==> fds[i] != e.fd;
  }

  lemma InsertMirrors(list: seq<Interest>, events: seq<PollFd>, n: nat, e: Interest)
    requires Mirrors(list, events) && n <= |list|
    ensures Mirrors(Inserted(list, n, e), Inserted(events, n, PollFd(e.fd, Low(e.mask), 0)))
  {
    hide Low;
  }

  lemma InsertStands(list: seq<Interest>, table: map<int, bv32>, n: nat, e: Interest)
    requires Stands(list, table) && n <= |list| && e.fd !in ListFds(list)
    ensures Stands(Inserted(list, n, e), table[e.fd := e.mask])
  {
    hide Inserted;
    var out, fds, all := Inserted(list, n, e), ListFds(list), table[e.fd := e.mask];
    InsertedAt(list, n, e, n);
    forall i | 0 <= i < |out| ensures out[i].fd in all && all[out[i].fd] == out[i].mask {
      InsertedAt(list, n, e, i);
      if i != n {
        var k := if i < n then i else i - 1;
        assert fds[k] == list[k].fd != e.fd;
      }
    }
    forall fd | fd in all ensures fd in ListFds(out) {
      if fd == e.fd {
        assert ListFds(out)[n] == fd;
      } else {
        var i :| 0 <= i < |fds| && fds[i] == fd;
        var k := if i < n then i else i + 1;
        InsertedAt(list, n, e, k);
        assert ListFds(out)[k] == fd;
      }
    }
  }

  lemma InsertedAt<T>(s: seq<T>, n: nat, x: T, i: nat)
    requires n <= |s| && i <= |s|
    ensures |Inserted(s, n, x)| == |s| + 1
    ensures Inserted(s, n, x)[i] == if i < n then s[i] else if i == n then x else s[i - 1]
  {
  }

  lemma InsertAgrees(list: seq<Interest>, events: seq<PollFd>, table: map<int, bv32>, n: nat, e: Interest)
    requires Agree(list, events, table) && IsLowerBound(ListFds(list), e.fd, n) && e.fd !in ListFds(list)
    ensures Agree(Inserted(list, n, e), Inserted(events, n, PollFd(e.fd, Low(e.mask), 0)), table[e.fd := e.mask])
  {
    hide Low, Ascending, Stands, Inserted;
    InsertStrict(list, n, e);
    InsertMirrors(list, events, n, e);
    InsertStands(list, table, n, e);
  }

  lemma UpdateAgrees(list: seq<Interest>, events: seq<PollFd>, table: map<int, bv32>, n: nat, mask: bv32)
    requires Agree(list, events, table) && n < |list|
    ensures Agree(list[n := list[n].(mask := mask)], events[n := events[n].(events := Low(mask))], table[list[n].fd := mask])
  {
    hide Low;
    var out := list[n := list[n].(mask := mask)];
    assert ListFds(out) == ListFds(list);
    assert forall i :: 0 <= i < |list| && i != n ==> ListFds(list)[i] != ListFds(list)[n];
  }

  lemma ErasedAt<T>(s: seq<T>, n: nat, i: nat)
    requires n < |s| && i < |s| - 1
    ensures |Erased(s, n)| == |s| - 1 && Erased(s, n)[i] == s[if i < n then i else i + 1]
  {
  }

  lemma EraseStrict(list: seq<Interest>, n: nat)
    requires Ascending(ListFds(list)) && n < |list|
    ensures Ascending(ListFds(Erased(list, n)))
  {
    hide Erased;
    var out, fds := Erased(list, n), ListFds(list);
    assert |Erased(list, n)| == |list| - 1 by { ErasedLength(list, n); }
    forall i, j | 0 <= i < j < |out| ensures ListFds(out)[i] < ListFds(out)[j] {
      ErasedAt(list, n, i);
      ErasedAt(list, n, j);
      assert fds[if i < n then i else i + 1] < fds[if j < n then j else j + 1];
    }
  }

  lemma ErasedLength<T>(s: seq<T>, n: nat)
    requires n < |s|
    ensures |Erased(s, n)| == |s| - 1
  {
  }

  lemma EraseMirrors(list: seq<Interest>, events: seq<PollFd>, n: nat)
    requires Mirrors(list, events) && n < |list|
    ensures Mirrors(Erased(list, n), Erased(events, n))
  {
    hide Low, Erased;
    ErasedLength(list, n);
    ErasedLength(events, n);
    forall i | 0 <= i < |list| - 1
      ensures Erased(events, n)[i].fd == Erased(list, n)[i].fd && Erased(events, n)[i].events == Low(Erased(list, n)[i].mask)
    {
      ErasedAt(list, n, i);
      ErasedAt(events, n, i);
    }
  }

  lemma EraseStands(list: seq<Interest>, table: map<int, bv32>, n: nat)
    requires Ascending(ListFds(list)) && Stands(list, table) && n < |list|
    ensures Stands(Erased(list, n), table - {list[n].fd})
  {
    hide Erased;
    var out, fds, rest := Erased(list, n), ListFds(list), table - {list[n].fd};
    ErasedLength(list, n);
    forall i | 0 <= i < |out| ensures out[i].fd in rest && rest[out[i].fd] == out[i].mask {
      ErasedAt(list, n, i);
      var k := if i < n then i else i + 1;
      assert fds[k] != fds[n];
    }
    forall fd | fd in rest ensures fd in ListFds(out) {
      var i :| 0 <= i < |fds| && fds[i] == fd;
      var k := if i < n then i else i - 1;
      ErasedAt(list, n, k);
      assert ListFds(out)[k] == fd;
    }
  }

  lemma EraseAgrees(list: seq<Interest>, events: seq<PollFd>, table: map<int, bv32>, n: nat)
    requires Agree(list, events, table) && n < |list|
    ensures Agree(Erased(list, n), Erased(events, n), table - {list[n].fd})
  {
    hide Ascending, Stands, Erased;
    EraseStrict(list, n);
    EraseMirrors(list, events, n);
    EraseStands(list, table, n);
  }

  /** What the program waits for on each descriptor is kept in `table`; the two vectors follow it. */
  class Trigger {
    const poller: Poller
    var list: seq<Interest>
    ghost var table: map<int, bv32>

    ghost predicate Valid()
      reads this, poller
    {
      Agree(list, poller.events, table)
    }

    constructor (poller: Poller)
      requires poller.events == []
      ensures Valid() && this.poller == poller && table == map[]
    {
      this.poller := poller;
      list, table := [], map[];
    }

    /** `set`: returns the number of descriptors; the poll set never refuses. */
    method Set(fd: int, trigger: bv32) returns (r: int)
      requires Valid()
      modifies this, poller
      ensures Valid() && table == On(old(table), fd, trigger) && r == |list|
      ensures AllPollSized(old(table)) && PollSized(trigger) ==> AllPollSized(table) && SameMasks(list, poller.events)
    {
      r := Widen(fd, trigger);
      MasksAreExact(list, poller.events, table);
      if AllPollSized(old(table)) {
        TablesStayPollSized(old(table), fd, trigger);
      }
    }

    /** The body of `set`. */
    method Widen(fd: int, trigger: bv32) returns (r: int)
      requires Valid()
      modifies this, poller
      ensures Valid() && table == On(old(table), fd, trigger) && r == |list|
    {
      hide Agree, Low, With, Covers, Ascending, IsLowerBound;
      ghost var events := poller.events;
      Opened(list, events, table);
      var at := LowerBound(ListFds(list), fd);
      Found(list, events, table, fd, at);
      ghost var n := 0;
      if at == |list| || list[at].fd != fd {
        InsertAgrees(list, events, table, at, Interest(fd, trigger));
        list := list[..at] + [Interest(fd, trigger)] + list[at..];
        table := On(table, fd, trigger);
        r, n := poller.Add(fd, PollFd(fd, Low(trigger), 0));
        BoundsAreEqual(PollFds(events), fd, at, n);
        return;
      }
      var mask := list[at].mask;
      if !Covers(mask, trigger) {
        UpdateAgrees(list, events, table, at, With(mask, trigger));
        list := list[at := list[at].(mask := With(mask, trigger))];
        table := On(table, fd, trigger);
        r, n := poller.Update(fd, PollFd(fd, Low(With(mask, trigger)), 0));
        BoundsAreEqual(PollFds(events), fd, at, n);
        return;
      }
      Absorbed(mask, trigger);
      assert table == On(table, fd, trigger);
      return |list|;
    }

    /** `clear`: -1 if the descriptor is not there. */
    method Clear(fd: int, trigger: bv32) returns (r: int)
      requires Valid()
      modifies this, poller
      ensures Valid() && table == Off(old(table), fd, trigger)
      ensures r == if fd in old(table) then |list| else -1
      ensures AllPollSized(old(table)) ==> AllPollSized(table) && SameMasks(list, poller.events)
    {
      r := Narrow(fd, trigger);
      MasksAreExact(list, poller.events, table);
      if AllPollSized(old(table)) {
        TablesStayPollSized(old(table), fd, trigger);
      }
    }

    /** The body of `clear`. */
    method Narrow(fd: int, trigger: bv32) returns (r: int)
      requires Valid()
      modifies this, poller
      ensures Valid() && table == Off(old(table), fd, trigger)
      ensures r == if fd in old(table) then |list| else -1
    {
      hide Agree, Low, Without, Ascending, IsLowerBound;
      ghost var events := poller.events;
      Opened(list, events, table);
      var at := LowerBound(ListFds(list), fd);
      Found(list, events, table, fd, at);
      ghost var n := 0;
      if at == |list| || list[at].fd != fd {
        return -1;
      }
      var mask := list[at].mask;
      if Without(mask, trigger) == 0 {
        EraseAgrees(list, events, table, at);
        list := list[..at] + list[at + 1..];
        table := Off(table, fd, trigger);
        r, n := poller.Del(fd);
        BoundsAreEqual(PollFds(events), fd, at, n);
        return;
      }
      if Without(mask, trigger) != mask {
        UpdateAgrees(list, events, table, at, Without(mask, trigger));
        list := list[at := list[at].(mask := Without(mask, trigger))];
        table := Off(table, fd, trigger);
        r, n := poller.Update(fd, PollFd(fd, Low(Without(mask, trigger)), 0));
        BoundsAreEqual(PollFds(events), fd, at, n);
        return;
      }
      assert table == Off(table, fd, trigger);
      return |list|;
    }
  }

  lemma Opened(list: seq<Interest>, events: seq<PollFd>, table: map<int, bv32>)
    requires Agree(list, events, table)
    ensures Ascending(ListFds(list)) && PollFds(events) == ListFds(list) && |events| == |list|
  {
    SameFds(list, events);
  }

  lemma Found(list: seq<Interest>, events: seq<PollFd>, table: map<int, bv32>, fd: int, n: nat)
    requires Agree(list, events, table) && IsLowerBound(ListFds(list), fd, n)
    ensures fd in ListFds(list) <==> fd in table
    ensures fd in ListFds(list) <==> n < |list| && list[n].fd == fd
    ensures n < |list| && list[n].fd == fd ==> table[fd] == list[n].mask
  {
    if n < |list| && list[n].fd == fd {
      assert ListFds(list)[n] == fd;
    }
  }

  lemma Absorbed(mask: bv32, trigger: bv32)
    requires Covers(mask, trigger)
    ensures With(mask, trigger) == mask
  {
  }
}
