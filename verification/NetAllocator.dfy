/**
 Relayed sockets: the list of open ports, with the scratch buffer that every Remove
 fills and empties again, and what that list conserves over any run.
 */
module NetAllocators {
  import opened Turn
  import opened Options
  import opened Keyed
  import opened Table

  datatype NetAllocation = NetAllocation(addr: Addr, proto: Protocol, conn: Conn)

  function At(addr: Addr, proto: Protocol): NetAllocation -> bool {
    (a: NetAllocation) => a.proto == proto && a.addr == addr
  }

  function NotAt(addr: Addr, proto: Protocol): NetAllocation -> bool {
    (a: NetAllocation) => !(a.proto == proto && a.addr == addr)
  }

  // ------------------------------------------------------------------ runs

  datatype NetOp = Open(socket: NetAllocation) | OpenFailed | Close(addr: Addr, proto: Protocol)

  /** The listed sockets, and the history of sockets opened and closed. */
  datatype Sockets = Sockets(listed: seq<NetAllocation>, acquired: seq<NetAllocation>, closed: seq<NetAllocation>)

  function NetStep(s: Sockets, op: NetOp): Sockets {
    match op
    case Open(a) => Sockets(s.listed + [a], s.acquired + [a], s.closed)
    case OpenFailed => s
    case Close(addr, proto) =>
      Sockets(Filter(NotAt(addr, proto), s.listed), s.acquired, s.closed + Filter(At(addr, proto), s.listed))
  }

  function NetRun(s: Sockets, ops: seq<NetOp>): Sockets
    decreases |ops|
  {
    if ops == [] then s else NetRun(NetStep(s, ops[0]), ops[1..])
  }

  ghost predicate Conserved(s: Sockets) {
    multiset(s.acquired) == multiset(s.listed) + multiset(s.closed)
  }

  /** A filter and its complement split a sequence. */
  lemma {:induction false} FilterSplits(addr: Addr, proto: Protocol, s: seq<NetAllocation>)
    ensures multiset(s) == multiset(Filter(NotAt(addr, proto), s)) + multiset(Filter(At(addr, proto), s))
  {
    if s != [] {
      FilterSplits(addr, proto, s[..|s| - 1]);
      assert s == s[..|s| - 1] + [s[|s| - 1]];
    }
  }

  /** Every socket ever opened is listed or closed, and as often as it was opened. */
  lemma {:induction false} RunConserves(s: Sockets, ops: seq<NetOp>)
    requires Conserved(s)
    ensures Conserved(NetRun(s, ops))
    decreases |ops|
  {
    if ops != [] {
      if ops[0].Close? {
        FilterSplits(ops[0].addr, ops[0].proto, s.listed);
      }
      RunConserves(NetStep(s, ops[0]), ops[1..]);
    }
  }

  /** With distinct sockets, none is closed twice and none that is closed is still listed. */
  lemma ClosedOnce(ops: seq<NetOp>, a: NetAllocation)
    requires multiset(NetRun(Sockets([], [], []), ops).acquired)[a] <= 1
    ensures var s := NetRun(Sockets([], [], []), ops);
      && multiset(s.closed)[a] <= 1
      && (a in s.acquired <==> a in s.listed || a in s.closed)
      && !(a in s.listed && a in s.closed)
  {
    RunConserves(Sockets([], [], []), ops);
    var s := NetRun(Sockets([], [], []), ops);
    assert a in s.listed <==> multiset(s.listed)[a] > 0;
    assert a in s.closed <==> multiset(s.closed)[a] > 0;
    assert a in s.acquired <==> multiset(s.acquired)[a] > 0;
  }

  /** A socket leaves the list only on a Close of its own address and protocol, which also closes it. */
  lemma LeavesOnlyWhenClosed(s: Sockets, op: NetOp, a: NetAllocation)
    requires a in s.listed
    ensures a !in NetStep(s, op).listed <==> op == Close(a.addr, a.proto)
    ensures op == Close(a.addr, a.proto) ==> a in NetStep(s, op).closed
  {
    if op.Close? {
      FilterMember(NotAt(op.addr, op.proto), s.listed, a);
      FilterMember(At(op.addr, op.proto), s.listed, a);
    }
  }

  // --------------------------------- what the allocation table frees, and does not

  /** The Close the allocator asks for when it drops an allocation: it names the server's own address. */
  function FreeOf(a: Allocation): NetOp {
    Close(a.tuple.server, a.tuple.proto)
  }

  /** Dropping an allocation closes its relayed socket, exactly if that has the server's own address. */
  lemma DropClosesRelayed(s: Sockets, a: Allocation, socket: NetAllocation)
    requires socket in s.listed && socket.addr == a.relayed && socket.proto == a.tuple.proto
    ensures socket !in NetStep(s, FreeOf(a)).listed <==> a.relayed == a.tuple.server
  {
    LeavesOnlyWhenClosed(s, FreeOf(a), socket);
  }

  // ------------------------------------------------------------------ buffers

  /** The allocator's two growable buffers. */
  class NetAllocator {
    var allocs: array<NetAllocation>
    var len: nat
    var newAllocs: array<NetAllocation>
    var newLen: nat
    /** Sockets closed so far. */
    ghost var closed: seq<NetAllocation>

    /** Between calls the scratch buffer is empty and shares no storage with the list. */
    ghost predicate Valid()
      reads this
    {
      len <= allocs.Length && newLen == 0 && allocs != newAllocs
    }

    ghost function Listed(): seq<NetAllocation>
      requires len <= allocs.Length
      reads this, allocs
    {
      allocs[..len]
    }

    constructor ()
      ensures Valid() && Listed() == [] && closed == []
      ensures fresh(allocs) && fresh(newAllocs)
    {
      allocs := new NetAllocation[0];
      newAllocs := new NetAllocation[0];
      len, newLen, closed := 0, 0, [];
    }

    /** Storage for one more element: the same array if it has room, else a larger copy. */
    static method Grown(a: array<NetAllocation>, n: nat) returns (b: array<NetAllocation>)
      requires n <= a.Length
      ensures n < b.Length && b[..n] == a[..n]
      ensures b == a || fresh(b)
    {
      if n < a.Length {
        return a;
      }
      b := new NetAllocation[2 * n + 1];
      forall i | 0 <= i < n {
        b[i] := a[i];
      }
    }

    method New(port: Option<NetAllocation>) returns (r: Option<NetAllocation>)
      requires Valid()
      modifies this, allocs
      ensures Valid() && newAllocs == old(newAllocs) && closed == old(closed) && r == port
      ensures Listed() == old(Listed()) + (if port.Some? then [port.value] else [])
      ensures allocs == old(allocs) || fresh(allocs)
    {
      r := port;
      if port.None? {
        return;
      }
      allocs := Grown(allocs, len);
      allocs[len] := port.value;
      len := len + 1;
    }

    /** Appends to the scratch buffer. */
    method Stash(alloc: NetAllocation)
      requires newLen <= newAllocs.Length
      modifies this`newAllocs, this`newLen, newAllocs
      ensures newLen <= newAllocs.Length
      ensures newAllocs[..newLen] == old(newAllocs[..newLen]) + [alloc]
      ensures newAllocs == old(newAllocs) || fresh(newAllocs)
    {
      newAllocs := Grown(newAllocs, newLen);
      newAllocs[newLen] := alloc;
      newLen := newLen + 1;
    }

    /** Copies what stays into the scratch buffer and returns what goes. */
    method Scan(addr: Addr, proto: Protocol) returns (toRemove: seq<NetAllocation>)
      requires Valid()
      modifies this`newAllocs, this`newLen, newAllocs
      ensures newAllocs == old(newAllocs) || fresh(newAllocs)
      ensures newAllocs != allocs && allocs[..len] == old(allocs[..len])
      ensures newLen <= newAllocs.Length && newAllocs[..newLen] == Filter(NotAt(addr, proto), allocs[..len])
      ensures toRemove == Filter(At(addr, proto), allocs[..len])
    {
      ghost var before := allocs[..len];
      toRemove := [];
      var i := 0;
      while i < len
        invariant 0 <= i <= len && allocs != newAllocs && allocs[..len] == before
        invariant newAllocs == old(newAllocs) || fresh(newAllocs)
        invariant newLen <= newAllocs.Length && newAllocs[..newLen] == Filter(NotAt(addr, proto), before[..i])
        invariant toRemove == Filter(At(addr, proto), before[..i])
      {
        var alloc := allocs[i];
        assert alloc == before[i] && before[..i + 1] == before[..i] + [alloc];
        FilterAppend(NotAt(addr, proto), before[..i], alloc);
        FilterAppend(At(addr, proto), before[..i], alloc);
        if alloc.proto != proto || alloc.addr != addr {
          Stash(alloc);
        } else {
          toRemove := toRemove + [alloc];
        }
        i := i + 1;
      }
      assert before[..i] == before;
    }

    method Remove(addr: Addr, proto: Protocol)
      requires Valid()
      modifies this, allocs, newAllocs
      ensures Valid() && allocs == old(allocs)
      ensures newAllocs == old(newAllocs) || fresh(newAllocs)
      ensures Listed() == Filter(NotAt(addr, proto), old(Listed()))
      ensures closed == old(closed) + Filter(At(addr, proto), old(Listed()))
    {
      var toRemove := Scan(addr, proto);
      if |toRemove| == 0 {
        NothingAt(addr, proto, Listed());
        newLen := 0;
        return;
      }
      var n := newLen;
      forall j | 0 <= j < n {
        allocs[j] := newAllocs[j];
      }
      len := n;
      newLen := 0;
      closed := closed + toRemove;
    }

    static lemma NothingAt(addr: Addr, proto: Protocol, s: seq<NetAllocation>)
      requires Filter(At(addr, proto), s) == []
      ensures Filter(NotAt(addr, proto), s) == s
    {
      forall a | a in s ensures NotAt(addr, proto)(a) {
        FilterMember(At(addr, proto), s, a);
      }
      FilterAll(NotAt(addr, proto), s);
    }
  }
}
