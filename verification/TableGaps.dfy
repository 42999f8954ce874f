/**
 Where the table does less than section 11.2 of RFC 5766 or its own names promise:
 for each gap the exact condition, and a short run that shows it.
 */
module TableGaps {
  import opened Turn
  import opened Options
  import opened Keyed
  import opened Table
  import opened TableLaws
  import opened TableMap
  import opened TableExpiry

  // ------------------------------------- a successful ChannelBind need not bind

  /** Channel `n` already belongs to another port of the peer's IP. */
  predicate HeldByOtherPort(a: Allocation, n: int, peer: Addr) {
    var k := IndexOf(IpOf, a.permissions, peer.ip);
    k < |a.permissions| &&
    var j := IndexOf(ChannelOf, a.permissions[k].bindings, n);
    j < |a.permissions[k].bindings| && a.permissions[k].bindings[j].port != peer.port
  }

  lemma BindPermissionBinds(p: Permission, n: int, peer: Addr, timeout: Time)
    requires WellFormedPermission(p) && p.ip == peer.ip && !Conflicts(p, n, peer)
    ensures var bs := BindPermission(p, n, peer.port, timeout).bindings;
      (Has(PortOf, bs, peer.port) && Lookup(PortOf, bs, peer.port).value.channel == n)
      <==> !(Has(ChannelOf, p.bindings, n) && Lookup(ChannelOf, p.bindings, n).value.port != peer.port)
  {
    var j := IndexOf(ChannelOf, p.bindings, n);
    if j < |p.bindings| {
      var b := p.bindings[j].(timeout := timeout);
      LookupUpdate(PortOf, p.bindings, j, b, peer.port);
      if Has(PortOf, p.bindings, peer.port) {
        LookupMember(ChannelOf, p.bindings, Lookup(PortOf, p.bindings, peer.port).value);
      }
    } else {
      LookupAppend(PortOf, p.bindings, Binding(peer.port, n, timeout), peer.port);
    }
  }

  lemma BindBinds(a: Allocation, n: int, peer: Addr, timeout: Time)
    requires WellFormedAllocation(a) && Bind(a, n, peer, timeout).Some?
    ensures BoundIn(Bind(a, n, peer, timeout).value, peer) == Channel(n) <==> !HeldByOtherPort(a, n, peer)
  {
    var ps := a.permissions;
    var k := IndexOf(IpOf, ps, peer.ip);
    if k < |ps| {
      BindPermissionBinds(ps[k], n, peer, timeout);
      LookupUpdate(IpOf, ps, k, BindPermission(ps[k], n, peer.port, timeout), peer.ip);
    } else {
      LookupAppend(IpOf, ps, Permission(peer.ip, timeout, [Binding(peer.port, n, timeout)]), peer.ip);
    }
  }

  /**
   A ChannelBind that succeeds binds the peer to the channel, exactly if the channel
   did not already belong to another port of the same IP; then it only refreshed that.
   */
  lemma SuccessBinds(t: AllocTable, u: FiveTuple, n: int, peer: Addr, timeout: Time)
    requires WellFormed(t) && ChannelBind(t, u, n, peer, timeout).1 == Done
    ensures Find(t, u).Some?
    ensures Bound(ChannelBind(t, u, n, peer, timeout).0, u, peer) == Channel(n)
      <==> !HeldByOtherPort(Find(t, u).value, n, peer)
  {
    BindEntries(t, u, n, peer, timeout, u);
    BindBinds(Find(t, u).value, n, peer, timeout);
  }

  // ----------------------------- a channel is unique per permission, not per client

  /** Two different peers of one client that are bound to the same channel. */
  ghost predicate SharedChannel(t: AllocTable, u: FiveTuple, n: int) {
    exists p, q: Addr :: p != q && Bound(t, u, p) == Channel(n) && Bound(t, u, q) == Channel(n)
  }

  lemma SharersDiffer(t: AllocTable, u: FiveTuple, n: int, p: Addr, q: Addr)
    requires WellFormed(t) && Bound(t, u, p) == Channel(n) && Bound(t, u, q) == Channel(n)
    ensures p == q || p.ip != q.ip
  {
    var a := Find(t, u).value;
    if p.ip == q.ip {
      var k := IndexOf(IpOf, a.permissions, p.ip);
      AbsBound(a, p, n);
      AbsBound(a, q, n);
      BoundIffBinding(a, k, p.port, n);
      BoundIffBinding(a, k, q.port, n);
    }
  }

  /** Peers that share a channel differ in IP. */
  lemma SharedChannelIps(t: AllocTable, ops: seq<Op>, u: FiveTuple, n: int, p: Addr, q: Addr)
    requires WellFormed(t)
    requires Bound(Run(t, ops), u, p) == Channel(n) && Bound(Run(t, ops), u, q) == Channel(n)
    ensures p == q || p.ip != q.ip
  {
    RunWellFormed(t, ops);
    SharersDiffer(Run(t, ops), u, n, p, q);
  }

  lemma PermitBound(a: Allocation, ip: IP, timeout: Time, q: Addr)
    requires WellFormedAllocation(a)
    ensures BoundIn(Permit(a, ip, timeout), q) == BoundIn(a, q)
  {
    var k := IndexOf(IpOf, a.permissions, ip);
    if k < |a.permissions| {
      LookupUpdate(IpOf, a.permissions, k, a.permissions[k].(timeout := timeout), q.ip);
    } else {
      LookupAppend(IpOf, a.permissions, Permission(ip, timeout, []), q.ip);
    }
  }

  lemma TrimBound(a: Allocation, now: Time, q: Addr, n: int)
    requires WellFormedAllocation(a) && BoundIn(TrimAllocation(now)(a), q) == Channel(n)
    ensures BoundIn(a, q) == Channel(n)
  {
    LookupMap(IpOf, Trim(now), a.permissions, q.ip);
    LookupFilter(IpOf, LivePermission(now), Map(Trim(now), a.permissions), q.ip);
    LookupFilter(PortOf, LiveBinding(now), Lookup(IpOf, a.permissions, q.ip).value.bindings, q.port);
  }

  lemma BindPermissionPort(p: Permission, n: int, peer: Addr, timeout: Time, port: int)
    requires WellFormedPermission(p) && p.ip == peer.ip && !Conflicts(p, n, peer) && port != peer.port
    ensures var r, r' := Lookup(PortOf, p.bindings, port), Lookup(PortOf, BindPermission(p, n, peer.port, timeout).bindings, port);
      (r.Some? <==> r'.Some?) && (r.Some? ==> r.value.channel == r'.value.channel)
  {
    var j := IndexOf(ChannelOf, p.bindings, n);
    if j < |p.bindings| {
      LookupUpdate(PortOf, p.bindings, j, p.bindings[j].(timeout := timeout), port);
      OnlyIndex(PortOf, p.bindings, j);
    } else {
      LookupAppend(PortOf, p.bindings, Binding(peer.port, n, timeout), port);
    }
  }

  /** A bind leaves every other peer as it was. */
  lemma BindElsewhere(a: Allocation, n: int, peer: Addr, timeout: Time, q: Addr)
    requires WellFormedAllocation(a) && Bind(a, n, peer, timeout).Some? && q != peer
    ensures BoundIn(Bind(a, n, peer, timeout).value, q) == BoundIn(a, q)
  {
    var ps := a.permissions;
    var k := IndexOf(IpOf, ps, peer.ip);
    if k < |ps| {
      LookupUpdate(IpOf, ps, k, BindPermission(ps[k], n, peer.port, timeout), q.ip);
      if q.ip == peer.ip { BindPermissionPort(ps[k], n, peer, timeout, q.port); }
    } else {
      LookupAppend(IpOf, ps, Permission(peer.ip, timeout, [Binding(peer.port, n, timeout)]), q.ip);
    }
  }

  /** After a bind its own peer is bound to that channel or to none. */
  lemma BindHere(a: Allocation, n: int, peer: Addr, timeout: Time, m: int)
    requires WellFormedAllocation(a) && Bind(a, n, peer, timeout).Some?
    requires BoundIn(Bind(a, n, peer, timeout).value, peer) == Channel(m)
    ensures m == n
  {
    BindBinds(a, n, peer, timeout);
    var ps := a.permissions;
    var k := IndexOf(IpOf, ps, peer.ip);
    if HeldByOtherPort(a, n, peer) {
      var bs, j := ps[k].bindings, IndexOf(ChannelOf, ps[k].bindings, n);
      LookupUpdate(IpOf, ps, k, BindPermission(ps[k], n, peer.port, timeout), peer.ip);
      assert WellFormedPermission(ps[k]);
      LookupUpdate(PortOf, bs, j, bs[j].(timeout := timeout), peer.port);
    }
  }

  /** The step binds `peer` to `n` for client `u`. */
  predicate BindsTo(t: AllocTable, op: Op, u: FiveTuple, n: int) {
    op.OpChannelBind? && op.tuple == u && op.n == n && Step(t, op).1 == Done
  }

  /** No step binds a peer to a channel, but a ChannelBind of just that peer and channel. */
  lemma NewlyBound(t: AllocTable, op: Op, u: FiveTuple, q: Addr, n: int)
    requires WellFormed(t) && Bound(Step(t, op).0, u, q) == Channel(n)
    ensures Bound(t, u, q) == Channel(n) || (BindsTo(t, op, u, n) && op.peer == q)
  {
    StepEntries(t, op, u);
    if Find(t, u).Some? {
      var a := Find(t, u).value;
      if op.OpPrune? { TrimBound(a, op.now, q, n); }
      else if op.OpCreatePermission? && op.tuple == u { PermitBound(a, op.peer.ip, op.timeout, q); }
      else if op.OpChannelBind? && op.tuple == u && Step(t, op).1 == Done {
        if q == op.peer { BindHere(a, op.n, op.peer, op.timeout, n); } else { BindElsewhere(a, op.n, op.peer, op.timeout, q); }
      }
    }
  }

  /** Channel `n` of client `u` belongs to a peer at another IP. */
  ghost predicate BoundElsewhere(t: AllocTable, u: FiveTuple, n: int, ip: IP) {
    exists q: Addr :: q.ip != ip && Bound(t, u, q) == Channel(n)
  }

  lemma HeldIsBound(t: AllocTable, u: FiveTuple, n: int, peer: Addr)
    requires WellFormed(t) && Find(t, u).Some? && HeldByOtherPort(Find(t, u).value, n, peer)
    ensures exists p: Addr :: p.ip == peer.ip && Bound(t, u, p) == Channel(n)
  {
    var a := Find(t, u).value;
    var k := IndexOf(IpOf, a.permissions, peer.ip);
    var p := Addr(peer.ip, Lookup(ChannelOf, a.permissions[k].bindings, n).value.port);
    BoundIffBinding(a, k, p.port, n);
    AbsBound(a, p, n);
    assert Bound(t, u, p) == Channel(n);
  }

  /** A bind to a second IP makes two peers share. */
  lemma SecondIpShares(t: AllocTable, op: Op, u: FiveTuple, n: int)
    requires WellFormed(t) && !SharedChannel(t, u, n) && BindsTo(t, op, u, n) && BoundElsewhere(t, u, n, op.peer.ip)
    ensures SharedChannel(Step(t, op).0, u, n)
  {
    var q: Addr :| q.ip != op.peer.ip && Bound(t, u, q) == Channel(n);
    var a, peer := Find(t, u).value, op.peer;
    assert !HeldByOtherPort(a, n, peer) by {
      if HeldByOtherPort(a, n, peer) { HeldIsBound(t, u, n, peer); }
    }
    SuccessBinds(t, u, n, peer, op.timeout);
    StepEntries(t, op, u);
    BindElsewhere(a, n, peer, op.timeout, q);
    assert Bound(Step(t, op).0, u, q) == Channel(n);
  }

  /**
   A step makes two peers of a client share a channel, exactly if it is a successful ChannelBind
   of that channel while the channel belongs to a peer at another IP.
   */
  lemma StepShares(t: AllocTable, op: Op, u: FiveTuple, n: int)
    requires WellFormed(t) && !SharedChannel(t, u, n)
    ensures SharedChannel(Step(t, op).0, u, n) <==> BindsTo(t, op, u, n) && BoundElsewhere(t, u, n, op.peer.ip)
  {
    var t' := Step(t, op).0;
    if SharedChannel(t', u, n) {
      var p, q: Addr :| p != q && Bound(t', u, p) == Channel(n) && Bound(t', u, q) == Channel(n);
      NewlyBound(t, op, u, p, n);
      NewlyBound(t, op, u, q, n);
      StepWellFormed(t, op);
      SharersDiffer(t', u, n, p, q);
    }
    if BindsTo(t, op, u, n) && BoundElsewhere(t, u, n, op.peer.ip) {
      SecondIpShares(t, op, u, n);
    }
  }

  /** As section 11.2 of RFC 5766 asks: no client has one channel for two peers. */
  ghost predicate Unshared(t: AllocTable) {
    forall u, n :: !SharedChannel(t, u, n)
  }

  /** Not a successful ChannelBind of a channel that belongs to a peer at another IP. */
  ghost predicate Tidy(t: AllocTable, op: Op) {
    op.OpChannelBind? && Step(t, op).1 == Done ==> !BoundElsewhere(t, op.tuple, op.n, op.peer.ip)
  }

  lemma StepUnshared(t: AllocTable, op: Op)
    requires WellFormed(t) && Unshared(t)
    ensures Unshared(Step(t, op).0) <==> Tidy(t, op)
  {
    forall u, n ensures SharedChannel(Step(t, op).0, u, n) <==> BindsTo(t, op, u, n) && BoundElsewhere(t, u, n, op.peer.ip) {
      StepShares(t, op, u, n);
    }
    if !Tidy(t, op) { assert SharedChannel(Step(t, op).0, op.tuple, op.n); }
  }

  ghost predicate TidyRun(t: AllocTable, ops: seq<Op>)
    decreases |ops|
  {
    ops == [] || (Tidy(t, ops[0]) && TidyRun(Step(t, ops[0]).0, ops[1..]))
  }

  /** Every table along the run is unshared. */
  ghost predicate AlwaysUnshared(t: AllocTable, ops: seq<Op>)
    decreases |ops|
  {
    Unshared(t) && (ops == [] || AlwaysUnshared(Step(t, ops[0]).0, ops[1..]))
  }

  /** In any run, no channel is ever shared exactly if no ChannelBind took one from a peer at another IP. */
  lemma {:induction false} RunUnshared(t: AllocTable, ops: seq<Op>)
    requires WellFormed(t) && Unshared(t)
    ensures AlwaysUnshared(t, ops) <==> TidyRun(t, ops)
    decreases |ops|
  {
    if ops != [] {
      StepUnshared(t, ops[0]);
      if Tidy(t, ops[0]) {
        StepWellFormed(t, ops[0]);
        RunUnshared(Step(t, ops[0]).0, ops[1..]);
      }
    }
  }

  // --------------------------------------------------------------- short runs

  const CLIENT := FiveTuple(Addr(V4(1), 1000), Addr(V4(2), 3478), PROTO_UDP)
  const RELAYED := Addr(V4(2), 49152)
  const PEER_A := Addr(V4(10), 5000)
  const PEER_B := Addr(V4(11), 5000)

  /** The client allocates. */
  const OPENING := [OpReserve(CLIENT, 100), OpCommit(CLIENT, 100, RELAYED, 7)]

  function GrantTo(peer: Addr, n: int, timeout: Time): Permission {
    Permission(peer.ip, timeout, [Binding(peer.port, n, 50)])
  }

  /** The client's allocation, with the given permissions. */
  function ClientWith(ps: seq<Permission>): AllocTable {
    [Allocation(CLIENT, ps, RELAYED, Some(7), 100)]
  }

  lemma RunFirst(t: AllocTable, op: Op, rest: seq<Op>, u: FiveTuple)
    requires Concerns(op, u)
    ensures Run(t, [op] + rest) == Run(Step(t, op).0, rest)
    ensures Answers(t, [op] + rest, u) == [Step(t, op).1] + Answers(Step(t, op).0, rest, u)
  {
    assert ([op] + rest)[1..] == rest;
  }

  lemma OpeningRun(rest: seq<Op>)
    ensures Run([], OPENING + rest) == Run(ClientWith([]), rest)
    ensures Answers([], OPENING + rest, CLIENT) == [Done, Done] + Answers(ClientWith([]), rest, CLIENT)
  {
    assert OPENING + rest == [OPENING[0]] + ([OPENING[1]] + rest);
    RunFirst([], OPENING[0], [OPENING[1]] + rest, CLIENT);
    var t := Step([], OPENING[0]).0;
    assert t == [Fresh(CLIENT, 100)];
    RunFirst(t, OPENING[1], rest, CLIENT);
    assert Step(t, OPENING[1]).0 == ClientWith([]);
  }

  /** The client allocates and takes two more steps, with success. */
  lemma ShortRun(first: Op, t1: AllocTable, second: Op, t2: AllocTable)
    requires Concerns(first, CLIENT) && Step(ClientWith([]), first) == (t1, Done)
    requires Concerns(second, CLIENT) && Step(t1, second) == (t2, Done)
    ensures Run([], OPENING + [first, second]) == t2
    ensures Answers([], OPENING + [first, second], CLIENT) == [Done, Done, Done, Done]
  {
    OpeningRun([first, second]);
    assert [first, second] == [first] + [second] && [second] == [second] + [];
    RunFirst(ClientWith([]), first, [second], CLIENT);
    RunFirst(t1, second, [], CLIENT);
  }

  /** A first permission for a peer, by binding a channel to it. */
  lemma BindNewPeer(ps: seq<Permission>, peer: Addr, n: int)
    requires ValidChannel(n) && !Has(IpOf, ps, peer.ip)
    ensures ChannelBind(ClientWith(ps), CLIENT, n, peer, 50) == (ClientWith(ps + [GrantTo(peer, n, 50)]), Done)
  {
    var t, a, b := ClientWith(ps), ClientWith(ps)[0], ClientWith(ps + [GrantTo(peer, n, 50)])[0];
    OnlyIndex(TupleOf, t, 0);
    assert Bind(a, n, peer, 50) == Some(b);
    assert t[0 := b] == [b];
  }

  /** One channel bound to two peers: all succeeds, and data goes to the second. */
  lemma SharedChannelRun(n: int)
    requires ValidChannel(n)
    ensures var ops := OPENING + [OpChannelBind(CLIENT, n, PEER_A, 50), OpChannelBind(CLIENT, n, PEER_B, 50)];
      && Answers([], ops, CLIENT) == [Done, Done, Done, Done]
      && SharedChannel(Run([], ops), CLIENT, n) && SendBound(Run([], ops), CLIENT, n) == Sent(7, PEER_B)
  {
    var pa, pb := GrantTo(PEER_A, n, 50), GrantTo(PEER_B, n, 50);
    BindTwoPeers(n);
    ShortRun(OpChannelBind(CLIENT, n, PEER_A, 50), ClientWith([pa]),
             OpChannelBind(CLIENT, n, PEER_B, 50), ClientWith([pa, pb]));
    SharedChannelSeen(n);
  }

  lemma BindTwoPeers(n: int)
    requires ValidChannel(n)
    ensures var pa, pb := GrantTo(PEER_A, n, 50), GrantTo(PEER_B, n, 50);
      && ChannelBind(ClientWith([]), CLIENT, n, PEER_A, 50) == (ClientWith([pa]), Done)
      && ChannelBind(ClientWith([pa]), CLIENT, n, PEER_B, 50) == (ClientWith([pa, pb]), Done)
  {
    var pa, pb := GrantTo(PEER_A, n, 50), GrantTo(PEER_B, n, 50);
    assert [] + [pa] == [pa] && [pa] + [pb] == [pa, pb];
    BindNewPeer([], PEER_A, n);
    BindNewPeer([pa], PEER_B, n);
  }

  lemma SharedChannelSeen(n: int)
    ensures var t := ClientWith([GrantTo(PEER_A, n, 50), GrantTo(PEER_B, n, 50)]);
      SharedChannel(t, CLIENT, n) && SendBound(t, CLIENT, n) == Sent(7, PEER_B)
  {
    var ps := [GrantTo(PEER_A, n, 50), GrantTo(PEER_B, n, 50)];
    var t := ClientWith(ps);
    OnlyIndex(IpOf, ps, 0);
    OnlyIndex(IpOf, ps, 1);
    assert Bound(t, CLIENT, PEER_A) == Channel(n);
    assert Bound(t, CLIENT, PEER_B) == Channel(n);
  }

  /** Binding a used channel to another port of the same IP succeeds, binds nothing, and refreshes the old port. */
  lemma RefreshOnlyRun(n: int, port: int)
    requires ValidChannel(n) && port != PEER_A.port
    ensures var ops := OPENING + [OpChannelBind(CLIENT, n, PEER_A, 50), OpChannelBind(CLIENT, n, Addr(PEER_A.ip, port), 90)];
      && Answers([], ops, CLIENT) == [Done, Done, Done, Done]
      && Bound(Run([], ops), CLIENT, Addr(PEER_A.ip, port)) == Mismatch
      && Run([], ops) == ClientWith([Permission(PEER_A.ip, 90, [Binding(PEER_A.port, n, 90)])])
  {
    BindTwoPeers(n);
    RefreshOnlySeen(n, port);
    ShortRun(OpChannelBind(CLIENT, n, PEER_A, 50), ClientWith([GrantTo(PEER_A, n, 50)]),
             OpChannelBind(CLIENT, n, Addr(PEER_A.ip, port), 90), ClientWith([Permission(PEER_A.ip, 90, [Binding(PEER_A.port, n, 90)])]));
  }

  lemma RefreshOnlySeen(n: int, port: int)
    requires ValidChannel(n) && port != PEER_A.port
    ensures var (t, r) := ChannelBind(ClientWith([GrantTo(PEER_A, n, 50)]), CLIENT, n, Addr(PEER_A.ip, port), 90);
      && r == Done && Bound(t, CLIENT, Addr(PEER_A.ip, port)) == Mismatch
      && t == ClientWith([Permission(PEER_A.ip, 90, [Binding(PEER_A.port, n, 90)])])
  {
    var p, q := GrantTo(PEER_A, n, 50), Permission(PEER_A.ip, 90, [Binding(PEER_A.port, n, 90)]);
    var t := ClientWith([p]);
    OnlyIndex(TupleOf, t, 0);
    OnlyIndex(IpOf, [p], 0);
    OnlyIndex(ChannelOf, p.bindings, 0);
    assert p.bindings[0 := Binding(PEER_A.port, n, 90)] == q.bindings;
    assert [p][0 := q] == [q];
    assert t[0 := ClientWith([q])[0]] == ClientWith([q]);
    OnlyIndex(IpOf, [q], 0);
  }

  /** Refreshing a permission to an earlier time makes the next prune drop a live binding. */
  lemma ShortenedPermissionLoses(n: int)
    requires ValidChannel(n)
    ensures var ops := OPENING + [OpChannelBind(CLIENT, n, PEER_A, 50), OpCreatePermission(CLIENT, PEER_A, 10)];
      Answers([], ops, CLIENT) == [Done, Done, Done, Done] && Loses(Run([], ops), 20)
  {
    BindTwoPeers(n);
    ShortenedSeen(n);
    ShortRun(OpChannelBind(CLIENT, n, PEER_A, 50), ClientWith([GrantTo(PEER_A, n, 50)]),
             OpCreatePermission(CLIENT, PEER_A, 10), ClientWith([GrantTo(PEER_A, n, 10)]));
  }

  lemma ShortenedSeen(n: int)
    requires ValidChannel(n)
    ensures CreatePermission(ClientWith([GrantTo(PEER_A, n, 50)]), CLIENT, PEER_A, 10)
         == (ClientWith([GrantTo(PEER_A, n, 10)]), Done)
    ensures Loses(ClientWith([GrantTo(PEER_A, n, 10)]), 20)
  {
    var was, p, b := GrantTo(PEER_A, n, 50), GrantTo(PEER_A, n, 10), Binding(PEER_A.port, n, 50);
    OnlyIndex(IpOf, [was], 0);
    assert [was][0 := p] == [p];
    var t := ClientWith([p]);
    OnlyIndex(TupleOf, ClientWith([was]), 0);
    assert ClientWith([was])[0 := t[0]] == t;
    OnlyIndex(IpOf, [p], 0);
    assert Present(t, CLIENT, PEER_A.ip, b);
    PrunePresent(t, 20, CLIENT, PEER_A.ip, b);
  }

  // ------------------------------------------------------- a full permission

  /** One binding for each of `k` ports, on the channels from 0x4000 up. */
  function Ladder(k: nat): seq<Binding> {
    seq(k, i requires 0 <= i < k => Binding(i, 0x4000 + i, 50))
  }

  /** The binds that make it. */
  function Climb(k: nat): seq<Op> {
    seq(k, i requires 0 <= i < k => OpChannelBind(CLIENT, 0x4000 + i, Addr(PEER_A.ip, i), 50))
  }

  function Filled(k: nat): AllocTable {
    ClientWith(if k == 0 then [] else [Permission(PEER_A.ip, 50, Ladder(k))])
  }

  lemma {:induction false} RunAppend(t: AllocTable, ops: seq<Op>, op: Op)
    ensures Run(t, ops + [op]) == Step(Run(t, ops), op).0
    decreases |ops|
  {
    if ops != [] {
      assert (ops + [op])[1..] == ops[1..] + [op];
      RunAppend(Step(t, ops[0]).0, ops[1..], op);
    }
  }

  /** One more rung. */
  lemma ClimbOne(k: nat)
    requires k < 16384
    ensures ChannelBind(Filled(k), CLIENT, 0x4000 + k, Addr(PEER_A.ip, k), 50) == (Filled(k + 1), Done)
  {
    var n, peer := 0x4000 + k, Addr(PEER_A.ip, k);
    OnlyIndex(TupleOf, Filled(k), 0);
    if k == 0 {
      BindNewPeer([], Addr(PEER_A.ip, 0), n);
      assert Ladder(1) == [Binding(0, n, 50)];
      assert [] + [GrantTo(peer, n, 50)] == [Permission(PEER_A.ip, 50, Ladder(1))];
    } else {
      var p, q := Permission(PEER_A.ip, 50, Ladder(k)), Permission(PEER_A.ip, 50, Ladder(k + 1));
      OnlyIndex(IpOf, [p], 0);
      assert !Has(PortOf, p.bindings, k) && !Has(ChannelOf, p.bindings, n);
      assert Ladder(k) + [Binding(k, n, 50)] == Ladder(k + 1);
      assert BindPermission(p, n, k, 50) == q;
      assert [p][0 := q] == [q];
      assert Filled(k)[0 := Filled(k + 1)[0]] == Filled(k + 1);
    }
  }

  lemma {:induction false} ClimbAll(k: nat)
    requires k <= 16384
    ensures Run(ClientWith([]), Climb(k)) == Filled(k)
  {
    if k > 0 {
      ClimbAll(k - 1);
      assert Climb(k) == Climb(k - 1) + [OpChannelBind(CLIENT, 0x4000 + k - 1, Addr(PEER_A.ip, k - 1), 50)];
      RunAppend(ClientWith([]), Climb(k - 1), OpChannelBind(CLIENT, 0x4000 + k - 1, Addr(PEER_A.ip, k - 1), 50));
      ClimbOne(k - 1);
    }
  }

  /** The bound of 16384 bindings is reached: a run from the empty table binds every channel of one permission. */
  lemma FullPermission()
    ensures var t := Run([], OPENING + Climb(16384));
      PermissionAt(t, CLIENT, PEER_A.ip).Some? && |PermissionAt(t, CLIENT, PEER_A.ip).value.bindings| == 16384
  {
    OpeningRun(Climb(16384));
    ClimbAll(16384);
    OnlyIndex(TupleOf, Filled(16384), 0);
    OnlyIndex(IpOf, Filled(16384)[0].permissions, 0);
  }

  // ----------------------------------------------------- the second half of New

  /**
   Whatever came since the reservation, a commit that still finds the entry makes of it what it
   would have been at once: permissions granted and refreshes made in between are forgotten.
   */
  lemma CommitForgets(t: AllocTable, u: FiveTuple, timeout: Time, ops: seq<Op>, relayed: Addr, conn: Conn, peer: Addr, n: int)
    requires WellFormed(t) && Reserve(t, u, timeout).1 == Done
    requires Find(Run(Reserve(t, u, timeout).0, ops), u).Some?
    ensures var reserved := Reserve(t, u, timeout).0;
      var t' := Commit(Run(reserved, ops), u, timeout, relayed, conn);
      && Find(t', u) == Find(Commit(reserved, u, timeout, relayed, conn), u)
      && Find(t', u).Some? && Find(t', u).value.timeout == timeout
      && Send(t', u, peer) == PermissionNotFound
      && SendBound(t', u, n) == PermissionNotFound
      && Bound(t', u, peer) == Mismatch
  {
    var reserved := Reserve(t, u, timeout).0;
    StepWellFormed(t, OpReserve(u, timeout));
    RunWellFormed(reserved, ops);
    StepEntries(t, OpReserve(u, timeout), u);
    StepEntries(reserved, OpCommit(u, timeout, relayed, conn), u);
    StepEntries(Run(reserved, ops), OpCommit(u, timeout, relayed, conn), u);
  }

  /** The client has no socket. */
  predicate Socketless(t: AllocTable, u: FiveTuple) {
    Find(t, u).Some? ==> Find(t, u).value.conn.None?
  }

  /**
   Until a commit of its own, whatever permissions a client is granted, nothing it sends goes
   out; so it is for good after a port allocation that failed and left the entry reserved.
   */
  lemma {:induction false} ReservedCannotSend(t: AllocTable, ops: seq<Op>, u: FiveTuple, peer: Addr, n: int)
    requires WellFormed(t) && Socketless(t, u)
    requires forall op :: op in ops && op.OpCommit? ==> op.tuple != u
    ensures Send(Run(t, ops), u, peer) == PermissionNotFound && SendBound(Run(t, ops), u, n) == PermissionNotFound
    decreases |ops|
  {
    if ops != [] {
      assert ops[0] in ops && forall op :: op in ops[1..] ==> op in ops;
      StepEntries(t, ops[0], u);
      StepWellFormed(t, ops[0]);
      ReservedCannotSend(Step(t, ops[0]).0, ops[1..], u, peer, n);
    }
  }
}
