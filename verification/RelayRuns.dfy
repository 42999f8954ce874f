/**
 The allocation table and the relayed sockets in the same runs. New reserves, opens a port and
 commits; Remove and Prune drop allocations under the table lock, and only after it is released
 ask the relayed-address allocator to free something for each. Other steps may come anywhere
 between.
 */
module RelayRuns {
  import opened Turn
  import opened Options
  import opened Keyed
  import opened Table
  import opened TableLaws
  import opened NetAllocators

  /** A call of New. */
  datatype Call =
    | Reserved(u: FiveTuple, timeout: Time)                         // before the port is opened
    | Opened(u: FiveTuple, timeout: Time, socket: NetAllocation)    // before the second lock hold
    | Over(u: FiveTuple)

  /** `toFree` are dropped allocations not yet freed; `dropped` is the history of all of them. */
  datatype State = State(
    table: AllocTable,
    sockets: Sockets,
    calls: seq<Call>,
    toFree: seq<Allocation>,
    dropped: seq<Allocation>)

  const INITIAL := State([], Sockets([], [], []), [], [], [])

  datatype Event =
    | Begin(u: FiveTuple, timeout: Time)
    | OpenPort(i: nat, port: Option<NetAllocation>)
    | Finish(i: nat)
    | Drop(u: FiveTuple)
    | Collect(now: Time)
    | Free(k: nat)
    | Other(op: Op)

  predicate Enabled(s: State, e: Event) {
    match e
    case OpenPort(i, port) =>
      i < |s.calls| && s.calls[i].Reserved? && (port.Some? ==> port.value.proto == s.calls[i].u.proto)
    case Finish(i) => i < |s.calls| && s.calls[i].Opened?
    case Free(k) => k < |s.toFree|
    case Other(op) => !op.OpReserve? && !op.OpCommit? && !op.OpRemove? && !op.OpPrune?
    case _ => true
  }

  /** The table step of an event, if it has one. */
  function TableOp(s: State, e: Event): Option<Op>
    requires Enabled(s, e)
  {
    match e
    case Begin(u, timeout) => Some(OpReserve(u, timeout))
    case Finish(i) => Some(OpCommit(s.calls[i].u, s.calls[i].timeout, s.calls[i].socket.addr, s.calls[i].socket.conn))
    case Drop(u) => Some(OpRemove(u))
    case Collect(now) => Some(OpPrune(now))
    case Other(op) => Some(op)
    case _ => None
  }

  function NextTable(s: State, e: Event): AllocTable
    requires Enabled(s, e)
  {
    if TableOp(s, e).Some? then Step(s.table, TableOp(s, e).value).0 else s.table
  }

  /** The allocations an event drops from the table. */
  function Drops(s: State, e: Event): seq<Allocation> {
    match e
    case Drop(u) => Filter(Same(u), s.table)
    case Collect(now) => Expired(s.table, now)
    case _ => []
  }

  function NextSockets(s: State, e: Event): Sockets
    requires Enabled(s, e)
  {
    match e
    case OpenPort(_, port) => NetStep(s.sockets, if port.Some? then Open(port.value) else OpenFailed)
    case Free(k) => NetStep(s.sockets, FreeOf(s.toFree[k]))
    case _ => s.sockets
  }

  function NextCalls(s: State, e: Event): seq<Call>
    requires Enabled(s, e)
  {
    match e
    case Begin(u, timeout) =>
      if Step(s.table, OpReserve(u, timeout)).1 == Done then s.calls + [Reserved(u, timeout)] else s.calls
    case OpenPort(i, port) =>
      var c := s.calls[i];
      s.calls[i := if port.Some? then Opened(c.u, c.timeout, port.value) else Over(c.u)]
    case Finish(i) => s.calls[i := Over(s.calls[i].u)]
    case _ => s.calls
  }

  function Next(s: State, e: Event): State
    requires Enabled(s, e)
  {
    var waiting := if e.Free? then s.toFree[..e.k] + s.toFree[e.k + 1..] else s.toFree;
    State(NextTable(s, e), NextSockets(s, e), NextCalls(s, e), waiting + Drops(s, e), s.dropped + Drops(s, e))
  }

  predicate Legal(s: State, run: seq<Event>)
    decreases |run|
  {
    run == [] || (Enabled(s, run[0]) && Legal(Next(s, run[0]), run[1..]))
  }

  function End(s: State, run: seq<Event>): State
    requires Legal(s, run)
    decreases |run|
  {
    if run == [] then s else End(Next(s, run[0]), run[1..])
  }

  /** The table steps of a run, in order. */
  function TableOps(s: State, run: seq<Event>): seq<Op>
    requires Legal(s, run)
    decreases |run|
  {
    if run == [] then []
    else (if TableOp(s, run[0]).Some? then [TableOp(s, run[0]).value] else []) + TableOps(Next(s, run[0]), run[1..])
  }

  /** Seen from the table, such a run is one of the table's own runs. */
  lemma {:induction false} TableRuns(s: State, run: seq<Event>)
    requires Legal(s, run)
    ensures End(s, run).table == Run(s.table, TableOps(s, run))
    decreases |run|
  {
    if run != [] {
      TableRuns(Next(s, run[0]), run[1..]);
      var op, rest := TableOp(s, run[0]), TableOps(Next(s, run[0]), run[1..]);
      if op.Some? {
        assert ([op.value] + rest)[1..] == rest;
      } else {
        assert [] + rest == rest;
      }
    }
  }

  // -------------------------------------------------------------- invariant

  /** The relayed socket of a committed allocation. */
  function SocketOf(a: Allocation): NetAllocation
    requires a.conn.Some?
  {
    NetAllocation(a.relayed, a.tuple.proto, a.conn.value)
  }

  /** The allocation's server address is known, and its socket was opened. */
  predicate Backed(servers: set<Addr>, acquired: seq<NetAllocation>, a: Allocation) {
    a.tuple.server in servers && (a.conn.Some? ==> SocketOf(a) in acquired)
  }

  predicate BackedCall(servers: set<Addr>, acquired: seq<NetAllocation>, c: Call) {
    c.u.server in servers && (c.Opened? ==> c.socket in acquired && c.socket.proto == c.u.proto)
  }

  ghost predicate AllBacked(servers: set<Addr>, s: State) {
    && Distinct(TupleOf, s.table)
    && (forall u :: Find(s.table, u).Some? ==> Backed(servers, s.sockets.acquired, Find(s.table, u).value))
    && (forall a :: a in s.dropped ==> Backed(servers, s.sockets.acquired, a))
    && (forall i :: 0 <= i < |s.calls| ==> BackedCall(servers, s.sockets.acquired, s.calls[i]))
  }

  /** Freeing `d` names the address and protocol of `x`. */
  predicate Names(d: Allocation, x: NetAllocation) {
    d.tuple.server == x.addr && d.tuple.proto == x.proto
  }

  /** Only what a dropped allocation names is closed. */
  ghost predicate OnlyNamedClosed(s: State) {
    forall x :: x in s.sockets.closed ==> exists d :: d in s.dropped && Names(d, x)
  }

  /** A dropped allocation that names its own socket waits to be freed, or the socket is closed. */
  ghost predicate NamedGetClosed(s: State) {
    forall a :: a in s.dropped && a.conn.Some? && Names(a, SocketOf(a)) ==> a in s.toFree || SocketOf(a) in s.sockets.closed
  }

  ghost predicate ClosedByName(s: State) {
    && Conserved(s.sockets)
    && (forall a :: a in s.toFree ==> a in s.dropped)
    && OnlyNamedClosed(s) && NamedGetClosed(s)
  }

  lemma EntryBacked(servers: set<Addr>, acquired: seq<NetAllocation>, e: Option<Allocation>, op: Op, u: FiveTuple)
    requires e.Some? ==> e.value.tuple == u && Backed(servers, acquired, e.value)
    requires op.OpReserve? ==> op.tuple.server in servers
    requires op.OpCommit? ==> NetAllocation(op.relayed, op.tuple.proto, op.conn) in acquired
    ensures EntryStep(e, op, u).Some? ==> Backed(servers, acquired, EntryStep(e, op, u).value)
  {
  }

  lemma TableBacked(servers: set<Addr>, s: State, a: Allocation)
    requires AllBacked(servers, s) && a in s.table
    ensures Backed(servers, s.sockets.acquired, a)
  {
    LookupMember(TupleOf, s.table, a);
    assert Find(s.table, a.tuple) == Some(a);
  }

  lemma ExpiredBacked(servers: set<Addr>, s: State, now: Time, a: Allocation)
    requires AllBacked(servers, s) && a in Expired(s.table, now)
    ensures Backed(servers, s.sockets.acquired, a)
  {
    var trimmed := Map(TrimAllocation(now), s.table);
    FilterMember(DeadAllocation(now), trimmed, a);
    var i :| 0 <= i < |trimmed| && a == trimmed[i];
    TableBacked(servers, s, s.table[i]);
  }

  /** What is dropped was in the table, but for its expired permissions. */
  lemma DropsBacked(servers: set<Addr>, s: State, e: Event, a: Allocation)
    requires AllBacked(servers, s) && a in Drops(s, e)
    ensures Backed(servers, s.sockets.acquired, a)
  {
    match e
    case Drop(u) =>
      FilterMember(Same(u), s.table, a);
      TableBacked(servers, s, a);
    case Collect(now) => ExpiredBacked(servers, s, now, a);
  }

  lemma NextBacked(servers: set<Addr>, s: State, e: Event)
    requires AllBacked(servers, s) && Enabled(s, e)
    requires e.Begin? ==> e.u.server in servers
    ensures AllBacked(servers, Next(s, e))
  {
    var s', acquired := Next(s, e), s.sockets.acquired;
    assert forall x :: x in acquired ==> x in s'.sockets.acquired;
    forall u ensures Distinct(TupleOf, s'.table)
      && (Find(s'.table, u).Some? ==> Backed(servers, acquired, Find(s'.table, u).value))
    {
      if TableOp(s, e).Some? {
        StepEntries(s.table, TableOp(s, e).value, u);
        EntryBacked(servers, acquired, Find(s.table, u), TableOp(s, e).value, u);
      }
    }
    assert Distinct(TupleOf, s'.table) by {
      if TableOp(s, e).Some? { StepEntries(s.table, TableOp(s, e).value, FiveTuple(ZERO_ADDR, ZERO_ADDR, 0)); }
    }
    forall a | a in s'.dropped ensures Backed(servers, acquired, a) {
      if a in Drops(s, e) { DropsBacked(servers, s, e, a); }
    }
  }

  /** What a Free closes, it names. */
  lemma FreeClosesNamed(ss: Sockets, d: Allocation, x: NetAllocation)
    requires Conserved(ss)
    ensures Conserved(NetStep(ss, FreeOf(d)))
    ensures x in NetStep(ss, FreeOf(d)).closed ==> x in ss.closed || Names(d, x)
    ensures x in ss.closed || (x in ss.acquired && Names(d, x)) ==> x in NetStep(ss, FreeOf(d)).closed
  {
    var addr, proto := d.tuple.server, d.tuple.proto;
    FilterSplits(addr, proto, ss.listed);
    FilterMember(At(addr, proto), ss.listed, x);
    if x in ss.acquired { ListedOrClosed(ss, x); }
  }

  /** After a Free: one allocation less waits, and only the sockets change. */
  lemma FreeTakes(s: State, k: nat)
    requires k < |s.toFree|
    ensures var s', d := Next(s, Free(k)), s.toFree[k];
      && s'.dropped == s.dropped && s'.sockets == NetStep(s.sockets, FreeOf(d))
      && (forall a :: a in s'.toFree ==> a in s.toFree)
      && (forall a :: a in s.toFree && a != d ==> a in s'.toFree)
  {
  }

  lemma FreeClosesByName(s: State, k: nat)
    requires ClosedByName(s) && k < |s.toFree|
    requires forall a :: a in s.dropped && a.conn.Some? ==> SocketOf(a) in s.sockets.acquired
    ensures ClosedByName(Next(s, Free(k)))
  {
    var s', d := Next(s, Free(k)), s.toFree[k];
    FreeTakes(s, k);
    forall x ensures Conserved(s'.sockets) && (x in s'.sockets.closed ==> x in s.sockets.closed || Names(d, x)) {
      FreeClosesNamed(s.sockets, d, x);
    }
    FreeClosesNamed(s.sockets, d, NetAllocation(ZERO_ADDR, 0, 0));
    assert d in s.dropped;
    forall a | a in s'.dropped && a.conn.Some? && Names(a, SocketOf(a))
      ensures a in s'.toFree || SocketOf(a) in s'.sockets.closed
    {
      FreeClosesNamed(s.sockets, d, SocketOf(a));
    }
  }

  lemma ListedOrClosed(ss: Sockets, x: NetAllocation)
    requires Conserved(ss) && x in ss.acquired
    ensures x in ss.listed || x in ss.closed
  {
    assert x in multiset(ss.listed) + multiset(ss.closed);
  }

  lemma NextClosedByName(servers: set<Addr>, s: State, e: Event)
    requires AllBacked(servers, s) && ClosedByName(s) && Enabled(s, e)
    ensures ClosedByName(Next(s, e))
  {
    var s' := Next(s, e);
    if e.Free? {
      FreeClosesByName(s, e.k);
      assert s'.toFree + [] == s'.toFree && s'.dropped + [] == s'.dropped;
    } else {
      assert s'.sockets.closed == s.sockets.closed;
    }
  }

  lemma {:induction false} RunClosesByName(servers: set<Addr>, s: State, run: seq<Event>)
    requires Legal(s, run) && AllBacked(servers, s) && ClosedByName(s)
    requires forall e :: e in run && e.Begin? ==> e.u.server in servers
    ensures AllBacked(servers, End(s, run)) && ClosedByName(End(s, run))
    decreases |run|
  {
    if run != [] {
      assert run[0] in run && forall e :: e in run[1..] ==> e in run;
      NextBacked(servers, s, run[0]);
      NextClosedByName(servers, s, run[0]);
      RunClosesByName(servers, Next(s, run[0]), run[1..]);
    }
  }

  // ------------------------------------------------------ what comes and goes

  /** An event drops a client's allocation exactly if the client's entry leaves the table, and it is then to be freed. */
  lemma LeavesAreDropped(s: State, e: Event, u: FiveTuple)
    requires Distinct(TupleOf, s.table) && Enabled(s, e)
    ensures (exists d :: d in Drops(s, e) && d.tuple == u) <==> Find(s.table, u).Some? && Find(Next(s, e).table, u) == None
    ensures forall d :: d in Drops(s, e) ==> d in Next(s, e).toFree && d in Next(s, e).dropped
    ensures forall d :: d in Drops(s, e) && d.tuple == u ==>
      d == Find(s.table, u).value.(permissions := d.permissions)
  {
    if TableOp(s, e).Some? { StepEntries(s.table, TableOp(s, e).value, u); }
    match e
    case Drop(v) => DropLeaves(s.table, v, u);
    case Collect(now) => ExpiredLeaves(s.table, now, u);
    case _ =>
  }

  lemma DropLeaves(t: AllocTable, v: FiveTuple, u: FiveTuple)
    requires Distinct(TupleOf, t)
    ensures (exists d :: d in Filter(Same(v), t) && d.tuple == u) <==> u == v && Find(t, u).Some?
    ensures forall d :: d in Filter(Same(v), t) && d.tuple == u ==> Find(t, u) == Some(d)
  {
    forall d | d in Filter(Same(v), t) ensures d.tuple == v && Find(t, v) == Some(d) {
      FilterMember(Same(v), t, d);
      LookupMember(TupleOf, t, d);
    }
    if Find(t, v).Some? { FilterMember(Same(v), t, Find(t, v).value); }
  }

  lemma ExpiredLeaves(t: AllocTable, now: Time, u: FiveTuple)
    requires Distinct(TupleOf, t)
    ensures (exists d :: d in Expired(t, now) && d.tuple == u) <==> Find(t, u).Some? && Find(t, u).value.timeout <= now
    ensures forall d :: d in Expired(t, now) && d.tuple == u ==>
      Find(t, u).Some? && d == Find(t, u).value.(permissions := d.permissions)
  {
    var trimmed := Map(TrimAllocation(now), t);
    forall d | d in Expired(t, now)
      ensures Find(t, d.tuple).Some? && Find(t, d.tuple).value.timeout <= now && d == Find(t, d.tuple).value.(permissions := d.permissions)
    {
      FilterMember(DeadAllocation(now), trimmed, d);
      var i :| 0 <= i < |trimmed| && d == trimmed[i];
      OnlyIndex(TupleOf, t, i);
      assert Find(t, d.tuple) == Some(t[i]);
    }
    if Find(t, u).Some? && Find(t, u).value.timeout <= now {
      var i := IndexOf(TupleOf, t, u);
      assert trimmed[i] in trimmed;
      FilterMember(DeadAllocation(now), trimmed, trimmed[i]);
    }
  }

  /** Reserving and opening. */
  lemma NewOpens(s: State, u: FiveTuple, timeout: Time, x: NetAllocation)
    requires Distinct(TupleOf, s.table) && Find(s.table, u) == None && u.proto == 17 == x.proto
    ensures var i, s1 := |s.calls|, Next(s, Begin(u, timeout));
      && Enabled(s1, OpenPort(i, Some(x)))
      && var s2 := Next(s1, OpenPort(i, Some(x)));
         && i < |s2.calls| && s2.calls[i] == Opened(u, timeout, x) && x in s2.sockets.listed && s2.dropped == s.dropped
         && Distinct(TupleOf, s2.table) && Find(s2.table, u).Some?
  {
    StepEntries(s.table, OpReserve(u, timeout), u);
    var s1 := Next(s, Begin(u, timeout));
    assert s1.calls == s.calls + [Reserved(u, timeout)];
    assert s.dropped + [] == s.dropped;
  }

  lemma NewCommits(s: State, i: nat, u: FiveTuple, timeout: Time, x: NetAllocation)
    requires i < |s.calls| && s.calls[i] == Opened(u, timeout, x) && Distinct(TupleOf, s.table) && Find(s.table, u).Some?
    ensures Enabled(s, Finish(i))
    ensures var s' := Next(s, Finish(i));
      && Find(s'.table, u) == Some(Allocation(u, [], x.addr, Some(x.conn), timeout))
      && s'.sockets == s.sockets && s'.dropped == s.dropped
  {
    StepEntries(s.table, OpCommit(u, timeout, x.addr, x.conn), u);
    assert s.dropped + [] == s.dropped;
  }

  /** A New that nothing disturbs leaves its client with the opened socket, listed. */
  lemma NewGetsSocket(s: State, u: FiveTuple, timeout: Time, x: NetAllocation)
    requires Distinct(TupleOf, s.table) && Find(s.table, u) == None && u.proto == 17 == x.proto
    ensures var i, s1 := |s.calls|, Next(s, Begin(u, timeout));
      && Enabled(s1, OpenPort(i, Some(x)))
      && var s2 := Next(s1, OpenPort(i, Some(x)));
         && Enabled(s2, Finish(i))
         && var s3 := Next(s2, Finish(i));
            && Find(s3.table, u) == Some(Allocation(u, [], x.addr, Some(x.conn), timeout))
            && SocketOf(Find(s3.table, u).value) == x && x in s3.sockets.listed && s3.dropped == s.dropped
  {
    NewOpens(s, u, timeout, x);
    NewCommits(Next(Next(s, Begin(u, timeout)), OpenPort(|s.calls|, Some(x))), |s.calls|, u, timeout, x);
  }

  // ---------------------------------------------------------------- results

  /** Every committed allocation of the run, in the table or dropped from it. */
  ghost predicate Committed(s: State, a: Allocation) {
    a.conn.Some? && (a in s.table || a in s.dropped)
  }

  /**
   With the server at one address, a dropped allocation's socket is closed once all freeing is
   done, exactly if its relayed address is the server's own; any other relayed socket leaks.
   */
  lemma DroppedSocketFate(here: Addr, run: seq<Event>, a: Allocation)
    requires Legal(INITIAL, run) && forall e :: e in run && e.Begin? ==> e.u.server == here
    requires var s := End(INITIAL, run); s.toFree == [] && a in s.dropped && a.conn.Some?
    ensures SocketOf(a) in End(INITIAL, run).sockets.closed <==> a.relayed == here
    ensures a.relayed != here ==> SocketOf(a) in End(INITIAL, run).sockets.listed
  {
    var s := End(INITIAL, run);
    RunClosesByName({here}, INITIAL, run);
    assert Backed({here}, s.sockets.acquired, a);
    if SocketOf(a) in s.sockets.closed {
      var d :| d in s.dropped && Names(d, SocketOf(a));
      assert Backed({here}, s.sockets.acquired, d);
    } else {
      ListedOrClosed(s.sockets, SocketOf(a));
    }
  }

  lemma {:induction false} AcquiredWereOpened(s: State, run: seq<Event>, x: NetAllocation)
    requires Legal(s, run) && x in End(s, run).sockets.acquired
    ensures x in s.sockets.acquired || exists e :: e in run && e.OpenPort? && e.port == Some(x)
    decreases |run|
  {
    if run != [] {
      AcquiredWereOpened(Next(s, run[0]), run[1..], x);
      assert run[0] in run && forall e :: e in run[1..] ==> e in run;
    }
  }

  /** A closed socket has the address of some server. */
  lemma ClosedAtServer(servers: set<Addr>, s: State, x: NetAllocation)
    requires AllBacked(servers, s) && ClosedByName(s) && x in s.sockets.closed
    ensures x.addr in servers && x in s.sockets.acquired
  {
    var d :| d in s.dropped && Names(d, x);
    assert Backed(servers, s.sockets.acquired, d);
    assert x in multiset(s.sockets.listed) + multiset(s.sockets.closed);
  }

  lemma NoneClosed(servers: set<Addr>, s: State)
    requires AllBacked(servers, s) && ClosedByName(s)
    requires forall x :: x in s.sockets.acquired ==> x.addr !in servers
    ensures s.sockets.closed == [] && multiset(s.sockets.listed) == multiset(s.sockets.acquired)
    ensures forall a :: Committed(s, a) ==> SocketOf(a) in s.sockets.listed
  {
    if s.sockets.closed != [] {
      ClosedAtServer(servers, s, s.sockets.closed[0]);
      assert false;
    }
    forall a | Committed(s, a) ensures SocketOf(a) in s.sockets.listed {
      if a in s.table { TableBacked(servers, s, a); }
      assert Backed(servers, s.sockets.acquired, a);
      ListedOrClosed(s.sockets, SocketOf(a));
    }
  }

  /**
   While opened addresses differ from every server address, no relayed socket is ever closed:
   not before its allocation is dropped, and not after.
   */
  lemma RelayedSocketsStayOpen(servers: set<Addr>, run: seq<Event>)
    requires Legal(INITIAL, run)
    requires forall e :: e in run ==>
      (e.Begin? ==> e.u.server in servers) && (e.OpenPort? && e.port.Some? ==> e.port.value.addr !in servers)
    ensures var s := End(INITIAL, run);
      && s.sockets.closed == [] && multiset(s.sockets.listed) == multiset(s.sockets.acquired)
      && forall a :: Committed(s, a) ==> SocketOf(a) in s.sockets.listed
  {
    var s := End(INITIAL, run);
    RunClosesByName(servers, INITIAL, run);
    forall x | x in s.sockets.acquired ensures x.addr !in servers {
      AcquiredWereOpened(INITIAL, run, x);
    }
    NoneClosed(servers, s);
  }
}
