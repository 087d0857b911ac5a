/** The socket buffers: bytes written wait in a growable buffer until the kernel takes them, bytes received wait in a
    fixed one until they are read.  One send buffer, stream socket. */
module SocketBuffers {
  import opened Frames

  const MIN_BUFSIZE: nat := 32768

  // ---------------------------------------------------------------------------
  // The kernel's side

  /** How `sendmsg` may answer. */
  datatype Answer = Took(n: nat) | Interrupted | IsConnected | WouldBlock | NotConnected | Broken

  /** How `connect` may answer. */
  datatype Reply = Done | Retry | AlreadyConnected | InProgress | Refused

  /** Answers come in any order; a kernel that has none left has no room left. */
  class Kernel {
    var sends: seq<Answer>
    var connects: seq<Reply>
    /** The bytes it has been handed. */
    var taken: seq<byte>
    /** How often it has answered with an error that is not handled, or refused to connect. */
    var failures: nat

    constructor (sends: seq<Answer>, connects: seq<Reply>)
      ensures this.sends == sends && this.connects == connects && taken == [] && failures == 0
    {
      this.sends, this.connects, this.taken, this.failures := sends, connects, [], 0;
    }

    method SendMsg(offer: seq<byte>) returns (r: Answer)
      modifies this`sends, this`taken, this`failures
      ensures r.Took? ==> r.n <= |offer| && taken == old(taken) + offer[..r.n]
      ensures !r.Took? ==> taken == old(taken)
      ensures |sends| < |old(sends)| || (r == WouldBlock && sends == old(sends))
      ensures failures == old(failures) + (if r == Broken then 1 else 0)
    {
      if sends == [] {
        return WouldBlock;
      }
      r := sends[0];
      sends := sends[1..];
      if r.Took? {
        if r.n > |offer| {
          r := Took(|offer|);
        }
        taken := taken + offer[..r.n];
      } else if r == Broken {
        failures := failures + 1;
      }
    }

    method Connect() returns (r: Reply)
      modifies this`connects, this`failures
      ensures failures == old(failures) + (if r == Refused then 1 else 0)
      ensures |connects| < |old(connects)| || (r == InProgress && connects == old(connects))
    {
      if connects == [] {
        return InProgress;
      }
      r := connects[0];
      connects := connects[1..];
      if r == Refused {
        failures := failures + 1;
      }
    }
  }

  /** `MIN_BUFSIZE*(putlen/MIN_BUFSIZE+1)`: the next multiple above what is pending. */
  function Capacity(pending: nat): (size: nat)
    ensures pending < size <= pending + MIN_BUFSIZE
  {
    MIN_BUFSIZE * (pending / MIN_BUFSIZE + 1)
  }

  // ---------------------------------------------------------------------------
  // Sending

  class Sender {
    const kernel: Kernel
    var data: array<byte>
    var put: nat
    var usable: bool
    var connected: bool
    var addressed: bool

    ghost predicate Valid()
      reads this
    {
      put <= data.Length && MIN_BUFSIZE <= data.Length
    }

    /** All that was ever written, in order: what the kernel has, then what is pending. */
    ghost function Stream(): seq<byte>
      requires Valid()
      reads this, kernel, data
    {
      kernel.taken + data[..put]
    }

    constructor (kernel: Kernel, usable: bool, connected: bool, addressed: bool)
      ensures Valid() && fresh(data) && this.kernel == kernel && put == 0
      ensures this.usable == usable && this.connected == connected && this.addressed == addressed
    {
      this.kernel := kernel;
      this.usable, this.connected, this.addressed := usable, connected, addressed;
      data := new byte[MIN_BUFSIZE];
      put := 0;
    }

    /** `memmove` of what was not sent to the front of the buffer. */
    method MoveDown(base: nat, n: nat)
      requires base + n <= data.Length
      modifies data
      ensures data[..n] == old(data[base..base + n])
    {
      var i := 0;
      while i < n
        invariant 0 <= i <= n
        invariant forall k :: 0 <= k < i ==> data[k] == old(data[base + k])
        invariant forall k :: i <= k < data.Length ==> data[k] == old(data[k])
      {
        data[i] := data[base + i];
        i := i + 1;
      }
    }

    /** The `realloc` in `_resizewbuf`. */
    method Resize()
      requires Valid()
      modifies this`data
      ensures Valid() && put == old(put) && data[..put] == old(data[..put])
      ensures data.Length == Capacity(put) && (data == old(data) || fresh(data))
    {
      var size := Capacity(put);
      if data.Length != size {
        var more := new byte[size];
        forall i | 0 <= i < put {
          more[i] := data[i];
        }
        assert more[..put] == data[..put];
        data := more;
      }
    }

    /** `_resizewbuf`: what is left, at `base`, moves to the front, and the buffer is fitted to it. */
    method ResizeBuffer(base: nat, left: nat)
      requires Valid() && base + left <= data.Length
      modifies this`data, this`put, data
      ensures Valid() && put == left && data[..put] == old(data[base..base + left])
      ensures data.Length == Capacity(put) && (data == old(data) || fresh(data))
    {
      MoveDown(base, left);
      put := left;
      Resize();
    }

    /** The loop of `_send`: offers what is pending, piece by piece, until all is taken or the kernel refuses.  What is left
        lies at `base`; an error other than `WouldBlock` is one. */
    method Offer() returns (base: nat, left: nat, error: Answer)
      requires Valid() && put > 0
      modifies this`connected, kernel
      ensures left <= put && (left == 0 || base + left == put) && base + left <= put
      ensures kernel.taken == old(kernel.taken) + data[..put - left] && kernel.connects == old(kernel.connects)
      ensures error in {WouldBlock, NotConnected, Broken} && kernel.failures == old(kernel.failures) + (if error == Broken then 1 else 0)
      ensures |kernel.sends| < |old(kernel.sends)| || (|kernel.sends| <= |old(kernel.sends)| && error == WouldBlock)
    {
      base, left, error := 0, put, WouldBlock;
      var pending := data[..put];
      while true
        invariant base + left == put && left > 0
        invariant kernel.taken == old(kernel.taken) + pending[..base] && kernel.connects == old(kernel.connects)
        invariant |kernel.sends| <= |old(kernel.sends)| && kernel.failures == old(kernel.failures)
        decreases |kernel.sends|
      {
        var size := if left < MIN_BUFSIZE then left else MIN_BUFSIZE;
        var answer := kernel.SendMsg(pending[base..base + size]);
        match answer
        case Took(n) =>
          Handed(old(kernel.taken), pending, base, size, n);
          if n == 0 {
            return;
          }
          left := left - n;
          if left == 0 {
            return;
          }
          base := base + n;
        case Interrupted =>
        case IsConnected => connected := true;
        case _ => return base, left, answer;
      }
    }

    /** The rest of `_send`, when there is something to send. */
    method Push() returns (error: Answer)
      requires Valid() && put > 0
      modifies this`data, this`put, this`connected, data, kernel
      ensures Valid() && Stream() == old(Stream()) && (data == old(data) || fresh(data))
      ensures old(kernel.taken) <= kernel.taken && kernel.connects == old(kernel.connects)
      ensures data.Length == Capacity(put)
      ensures error in {WouldBlock, NotConnected, Broken} && kernel.failures == old(kernel.failures) + (if error == Broken then 1 else 0)
      ensures |kernel.sends| < |old(kernel.sends)| || (|kernel.sends| <= |old(kernel.sends)| && error == WouldBlock)
    {
      hide Capacity;
      ghost var taken, all := kernel.taken, data[..put];
      var base, left;
      base, left, error := Offer();
      ghost var kept := data[base..base + left];
      assert kept == all[|all| - left..];
      Split(taken, all, |all| - left);
      ResizeBuffer(base, left);
      assert data[..put] == kept;
    }

    /** `_send`: ends with `_resizewbuf` unless there was nothing to send. */
    method Send() returns (error: Answer)
      requires Valid()
      modifies this`data, this`put, this`connected, data, kernel
      ensures Valid() && Stream() == old(Stream()) && (data == old(data) || fresh(data))
      ensures old(kernel.taken) <= kernel.taken && kernel.connects == old(kernel.connects)
      ensures old(put) > 0 ==> data.Length == Capacity(put)
      ensures error in {WouldBlock, NotConnected, Broken} && kernel.failures == old(kernel.failures) + (if error == Broken then 1 else 0)
      ensures |kernel.sends| < |old(kernel.sends)| || (|kernel.sends| <= |old(kernel.sends)| && error == WouldBlock)
    {
      if !usable || (!connected && !addressed) {
        Resize();
        return WouldBlock;
      }
      if put == 0 {
        return WouldBlock;
      }
      error := Push();
    }

    /** The `connect` loop of `sync`. */
    method Reconnect() returns (reply: Reply)
      modifies kernel`connects, kernel`failures
      ensures reply != Retry && kernel.failures == old(kernel.failures) + (if reply == Refused then 1 else 0)
    {
      reply := kernel.Connect();
      while reply == Retry
        invariant kernel.failures == old(kernel.failures) + (if reply == Refused then 1 else 0)
        decreases |kernel.connects|, reply == Retry
      {
        reply := kernel.Connect();
      }
    }

    /** `sync`: sends, and connects when the kernel says that the socket is not connected; fails exactly when the kernel
        does. */
    method Sync() returns (ok: bool)
      requires Valid()
      modifies this`data, this`put, this`connected, data, kernel
      ensures Valid() && Stream() == old(Stream()) && (data == old(data) || fresh(data))
      ensures old(kernel.taken) <= kernel.taken
      ensures old(put) == old(data.Length) ==> put < data.Length
      ensures ok <==> kernel.failures == old(kernel.failures)
    {
      var error := Send();
      while error != WouldBlock
        invariant Valid() && Stream() == old(Stream()) && (data == old(data) || fresh(data))
        invariant old(kernel.taken) <= kernel.taken
        invariant error in {WouldBlock, NotConnected, Broken} && kernel.failures == old(kernel.failures) + (if error == Broken then 1 else 0)
        invariant put < data.Length || old(put) < old(data.Length)
        decreases |kernel.sends|, error != WouldBlock
      {
        if error == Broken {
          return false;
        }
        if !addressed {
          return true;
        }
        var reply := Reconnect();
        match reply {
          case AlreadyConnected => connected := true;
          case InProgress =>
            connected := true;
            return true;
          case Refused => return false;
          case _ =>
        }
        error := Send();
      }
      return true;
    }
  
    /** `overflow`: called when the buffer is full.  After a flush there is room, so putting the character does not
        overflow again. */
    method Overflow(ch: byte) returns (ok: bool)
      requires Valid() && put == data.Length
      modifies this`data, this`put, this`connected, data, kernel
      ensures Valid() && (data == old(data) || fresh(data)) && old(kernel.taken) <= kernel.taken
      ensures Stream() == if ok then old(Stream()) + [ch] else old(Stream())
      ensures ok <==> kernel.failures == old(kernel.failures)
    {
      ok := Sync();
      if ok {
        ghost var before := data[..put];
        data[put] := ch;
        put := put + 1;
        assert data[..put] == before + [ch];
      }
    }

    /** `sputn`, one character after another: all is written, or what was written before the kernel broke off. */
    method Write(bytes: seq<byte>) returns (n: nat)
      requires Valid()
      modifies this`data, this`put, this`connected, data, kernel
      ensures Valid() && (data == old(data) || fresh(data)) && old(kernel.taken) <= kernel.taken
      ensures n <= |bytes| && Stream() == old(Stream()) + bytes[..n]
      ensures n == |bytes| <==> kernel.failures == old(kernel.failures)
    {
      n := 0;
      while n < |bytes|
        invariant n <= |bytes| && Valid() && (data == old(data) || fresh(data)) && old(kernel.taken) <= kernel.taken
        invariant Stream() == old(Stream()) + bytes[..n] && kernel.failures == old(kernel.failures)
      {
        ghost var before, was := data[..put], Stream();
        if put < data.Length {
          data[put] := bytes[n];
          put := put + 1;
          assert data[..put] == before + [bytes[n]];
        } else {
          var ok := Overflow(bytes[n]);
          if !ok {
            return;
          }
        }
        assert Stream() == was + [bytes[n]];
        assert bytes[..n + 1] == bytes[..n] + [bytes[n]];
        n := n + 1;
      }
    }
  }

  lemma Split(taken: seq<byte>, all: seq<byte>, k: nat)
    requires k <= |all|
    ensures taken + all[..k] + all[k..] == taken + all
  {
    assert all == all[..k] + all[k..];
  }

  /** Of what was offered at `base`, `n` bytes have been taken. */
  lemma Handed(taken: seq<byte>, pending: seq<byte>, base: nat, size: nat, n: nat)
    requires base + size <= |pending| && n <= size
    ensures taken + pending[..base] + pending[base..base + size][..n] == taken + pending[..base + n]
  {
    assert pending[..base + n] == pending[..base] + pending[base..base + size][..n];
  }

  // ---------------------------------------------------------------------------
  // Receiving

  /** How `recvmsg` may answer; bytes that do not fit wait for the next call. */
  datatype Arrival = Bytes(s: seq<byte>) | Signal | Nothing | Failure

  function Flat(arrivals: seq<Arrival>): seq<byte> {
    if arrivals == [] then [] else (if arrivals[0].Bytes? then arrivals[0].s else []) + Flat(arrivals[1..])
  }

  /** End of file, or an error that is not handled. */
  predicate IsFailure(r: Arrival) {
    r.Failure? || r == Bytes([])
  }

  class Network {
    var arrivals: seq<Arrival>
    var failures: nat

    method RecvMsg(room: nat) returns (r: Arrival)
      requires room > 0
      modifies this
      ensures Flat(old(arrivals)) == (if r.Bytes? then r.s else []) + Flat(arrivals)
      ensures r.Bytes? ==> |r.s| <= room
      ensures |arrivals| < |old(arrivals)| || (|arrivals| <= |old(arrivals)| && !r.Signal?)
      ensures failures == old(failures) + (if IsFailure(r) then 1 else 0)
    {
      if arrivals == [] {
        return Nothing;
      }
      r := arrivals[0];
      ghost var all := arrivals;
      if r.Bytes? && |r.s| > room {
        arrivals := [Bytes(r.s[room..])] + arrivals[1..];
        assert arrivals[1..] == all[1..];
        assert r.s == r.s[..room] + r.s[room..];
        return Bytes(r.s[..room]);
      }
      arrivals := arrivals[1..];
      if IsFailure(r) {
        failures := failures + 1;
      }
    }
  }

  lemma Regroup(unread: seq<byte>, s: seq<byte>, rest: seq<byte>)
    ensures unread + (s + rest) == unread + s + rest
  {
  }

  class Receiver {
    const network: Network
    const data: array<byte>
    var got: nat
    var end: nat

    ghost predicate Valid()
      reads this, data
    {
      got <= end <= data.Length == MIN_BUFSIZE
    }

    constructor (network: Network)
      ensures Valid() && this.network == network && Unread() == [] && fresh(data)
    {
      this.network := network;
      data := new byte[MIN_BUFSIZE];
      got, end := 0, 0;
    }

    ghost function Unread(): seq<byte>
      requires Valid()
      reads this, data
    {
      data[got..end]
    }

    /** `_memmoverbuf`: what has not been read moves to the front. */
    method MoveUnread()
      requires Valid()
      modifies this`got, this`end, data
      ensures Valid() && got == 0 && Unread() == old(Unread())
    {
      var n, i := end - got, 0;
      while i < n
        invariant 0 <= i <= n && got == old(got) && end == old(end)
        invariant forall k :: 0 <= k < i ==> data[k] == old(data[got + k])
        invariant forall k :: i <= k < data.Length ==> data[k] == old(data[k])
      {
        data[i] := data[got + i];
        i := i + 1;
      }
      got, end := 0, n;
      assert data[0..n] == old(data[got..end]);
    }

    /** The kernel puts what it has behind what has not been read. */
    method Store(s: seq<byte>)
      requires Valid() && end + |s| <= data.Length
      modifies this`end, data
      ensures Valid() && Unread() == old(Unread()) + s
    {
      ghost var was := data[got..end];
      forall i | 0 <= i < |s| {
        data[end + i] := s[i];
      }
      end := end + |s|;
      assert data[got..end] == was + s;
    }

    /** `_recv`: what has not been read stays, and what arrives follows it; fails exactly at end of file or on an error. */
    method Recv() returns (ok: bool)
      requires Valid()
      modifies this`got, this`end, data, network
      ensures Valid() && got == 0 && old(Unread()) <= Unread()
      ensures Unread() + Flat(network.arrivals) == old(Unread() + Flat(network.arrivals))
      ensures ok <==> network.failures == old(network.failures)
    {
      hide Flat;
      MoveUnread();
      if end == data.Length {
        return true;
      }
      var r := Await(data.Length - end);
      match r
      case Bytes(s) =>
        Regroup(Unread(), s, Flat(network.arrivals));
        Store(s);
        ok := s != [];
      case Nothing => ok := true;
      case _ => ok := false;
    }

    /** Interrupted calls are repeated. */
    method Await(room: nat) returns (r: Arrival)
      requires room > 0
      modifies network
      ensures Flat(old(network.arrivals)) == (if r.Bytes? then r.s else []) + Flat(network.arrivals)
      ensures r.Bytes? ==> |r.s| <= room
      ensures !r.Signal? && network.failures == old(network.failures) + (if IsFailure(r) then 1 else 0)
    {
      r := network.RecvMsg(room);
      while r.Signal?
        invariant Flat(old(network.arrivals)) == (if r.Bytes? then r.s else []) + Flat(network.arrivals)
        invariant r.Bytes? ==> |r.s| <= room
        invariant network.failures == old(network.failures) + (if IsFailure(r) then 1 else 0)
        decreases |network.arrivals|, r.Signal?
      {
        r := network.RecvMsg(room);
      }
    }

    /** `showmanyc`: asks for more only when all has been read. */
    method ShowManyC() returns (n: int)
      requires Valid()
      modifies this`got, this`end, data, network
      ensures Valid() && Unread() + Flat(network.arrivals) == old(Unread() + Flat(network.arrivals))
      ensures n == if network.failures == old(network.failures) then |Unread()| else -1
      ensures old(got) < old(end) ==> n == |Unread()| && Unread() == old(Unread())
    {
      if got == end {
        var ok := Recv();
        if !ok {
          return -1;
        }
      }
      n := end - got;
    }
  }
}
