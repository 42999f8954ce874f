/**
 The table without its lists: a map from 5-tuple to a map from IP to a timeout and a
 map from port to channel binding. Every operation on the lists, with its first-match
 and last-match loops, is an operation on the maps.
 */
module TableMap {
  import opened Turn
  import opened Options
  import opened Keyed
  import opened Table
  import opened TableLaws

  datatype PermissionSpec = PermissionSpec(timeout: Time, bindings: map<int, Binding>)

  /** `order` lists the permitted IPs, oldest first: a channel bound twice belongs to the newest. */
  datatype AllocationSpec = AllocationSpec(
    order: seq<IP>,
    permissions: map<IP, PermissionSpec>,
    relayed: Addr,
    conn: Option<Conn>,
    timeout: Time)

  type TableSpec = map<FiveTuple, AllocationSpec>

  // ------------------------------------------------------ operations on maps

  function SpecFresh(timeout: Time): AllocationSpec {
    AllocationSpec([], map[], ZERO_ADDR, None, timeout)
  }

  function SpecPermit(a: AllocationSpec, ip: IP, timeout: Time): AllocationSpec {
    if ip in a.permissions then
      a.(permissions := a.permissions[ip := a.permissions[ip].(timeout := timeout)])
    else
      a.(permissions := a.permissions[ip := PermissionSpec(timeout, map[])], order := a.order + [ip])
  }

  predicate ChannelUsed(bs: map<int, Binding>, n: int) {
    exists q :: q in bs && bs[q].channel == n
  }

  function Refreshed(bs: map<int, Binding>, n: int, timeout: Time): map<int, Binding> {
    map q | q in bs :: if bs[q].channel == n then bs[q].(timeout := timeout) else bs[q]
  }

  function SpecBindPermission(p: PermissionSpec, n: int, port: int, timeout: Time): PermissionSpec {
    PermissionSpec(MaxTime(p.timeout, timeout),
      if ChannelUsed(p.bindings, n) then Refreshed(p.bindings, n, timeout)
      else p.bindings[port := Binding(port, n, timeout)])
  }

  function SpecBind(a: AllocationSpec, n: int, peer: Addr, timeout: Time): Option<AllocationSpec> {
    if peer.ip !in a.permissions then
      Some(a.(permissions := a.permissions[peer.ip := PermissionSpec(timeout, map[peer.port := Binding(peer.port, n, timeout)])],
              order := a.order + [peer.ip]))
    else
      var p := a.permissions[peer.ip];
      if peer.port in p.bindings && p.bindings[peer.port].channel != n then None
      else Some(a.(permissions := a.permissions[peer.ip := SpecBindPermission(p, n, peer.port, timeout)]))
  }

  function SpecTrim(p: PermissionSpec, now: Time): PermissionSpec {
    p.(bindings := map q | q in p.bindings && p.bindings[q].timeout > now :: p.bindings[q])
  }

  function LiveIp(a: AllocationSpec, now: Time): IP -> bool {
    ip => ip in a.permissions && a.permissions[ip].timeout > now
  }

  function SpecPruneAllocation(a: AllocationSpec, now: Time): AllocationSpec {
    a.(order := Filter(LiveIp(a, now), a.order),
       permissions := map ip | ip in a.permissions && a.permissions[ip].timeout > now :: SpecTrim(a.permissions[ip], now))
  }

  function SpecPrune(m: TableSpec, now: Time): TableSpec {
    map u | u in m && m[u].timeout > now :: SpecPruneAllocation(m[u], now)
  }

  function SpecStep(m: TableSpec, op: Op): TableSpec {
    match op
    case OpReserve(u, timeout) =>
      if u.proto == PROTO_UDP && u !in m then m[u := SpecFresh(timeout)] else m
    case OpCommit(u, timeout, relayed, conn) =>
      if u in m then m[u := SpecFresh(timeout).(relayed := relayed, conn := Some(conn))] else m
    case OpRemove(u) => m - {u}
    case OpCreatePermission(u, peer, timeout) =>
      if u in m then m[u := SpecPermit(m[u], peer.ip, timeout)] else m
    case OpChannelBind(u, n, peer, timeout) =>
      if u in m && ValidChannel(n) && SpecBind(m[u], n, peer, timeout).Some?
      then m[u := SpecBind(m[u], n, peer, timeout).value] else m
    case OpRefresh(u, timeout) => if u in m then m[u := m[u].(timeout := timeout)] else m
    case OpPrune(now) => SpecPrune(m, now)
    case _ => m
  }

  predicate Permitted(m: TableSpec, u: FiveTuple, ip: IP) {
    u in m && ip in m[u].permissions
  }

  /** `port` of `ip` is bound to channel `n`. */
  predicate BoundTo(a: AllocationSpec, peer: Addr, n: int) {
    peer.ip in a.permissions && peer.port in a.permissions[peer.ip].bindings
    && a.permissions[peer.ip].bindings[peer.port].channel == n
  }

  /** The peer is bound to `n`, and nothing under a newer permission is. */
  ghost predicate NewestBound(a: AllocationSpec, peer: Addr, n: int) {
    && BoundTo(a, peer, n)
    && exists k :: 0 <= k < |a.order| && a.order[k] == peer.ip
        && forall j, port :: k < j < |a.order| ==> !BoundTo(a, Addr(a.order[j], port), n)
  }

  ghost function PermissionKeys(m: TableSpec): set<(FiveTuple, IP)> {
    set u, ip | u in m && ip in m[u].permissions :: (u, ip)
  }

  ghost function BindingKeys(m: TableSpec): set<((FiveTuple, IP), int)> {
    set u, ip, port | u in m && ip in m[u].permissions && port in m[u].permissions[ip].bindings :: ((u, ip), port)
  }

  /** The answer to a step, read off the maps. */
  ghost predicate SpecAnswer(m: TableSpec, op: Op, r: Result) {
    match op
    case OpReserve(u, _) => r == if u.proto != PROTO_UDP then NotImplemented else if u in m then Mismatch else Done
    case OpCommit(_, _, _, _) => r == Done
    case OpRemove(u) => r == if u in m then Done else Mismatch
    case OpCreatePermission(u, _, _) => r == if u in m then Done else Mismatch
    case OpChannelBind(u, n, peer, timeout) =>
      r == if !ValidChannel(n) then InvalidChannel
           else if u in m && SpecBind(m[u], n, peer, timeout).Some? then Done else Mismatch
    case OpRefresh(_, _) => r == Done
    case OpSend(u, peer) =>
      r == if Permitted(m, u, peer.ip) && m[u].conn.Some? then Sent(m[u].conn.value, peer) else PermissionNotFound
    case OpSendBound(u, n) =>
      if r.Sent? then u in m && m[u].conn == Some(r.conn) && NewestBound(m[u], r.to, n)
      else r == PermissionNotFound && (u !in m || m[u].conn.None? || forall peer :: !BoundTo(m[u], peer, n))
    case OpBound(u, peer) =>
      if r.Channel? then u in m && BoundTo(m[u], peer, r.number)
      else r == Mismatch && (u !in m || forall n :: !BoundTo(m[u], peer, n))
    case OpPrune(_) => r == Done
    case OpStats => r == Counts(|m|, |PermissionKeys(m)|, |BindingKeys(m)|)
  }

  // ----------------------------------------------------------- abstraction

  /** The map a keyed list stands for, each element seen through `view`. */
  ghost function ViewBy<T, K, V>(key: T -> K, view: T -> V, s: seq<T>): map<K, V> {
    if s == [] then map[]
    else ViewBy(key, view, s[..|s| - 1])[key(s[|s| - 1]) := view(s[|s| - 1])]
  }

  lemma {:induction false} ViewLookup<T, K, V>(key: T -> K, view: T -> V, s: seq<T>, k: K)
    requires Distinct(key, s)
    ensures k in ViewBy(key, view, s) <==> Has(key, s, k)
    ensures Has(key, s, k) ==> ViewBy(key, view, s)[k] == view(Lookup(key, s, k).value)
  {
    if s != [] {
      var init, last := s[..|s| - 1], s[|s| - 1];
      ViewLookup(key, view, init, k);
      assert s == init + [last];
      LookupAppend(key, init, last, k);
    }
  }

  lemma ViewAppend<T, K, V>(key: T -> K, view: T -> V, s: seq<T>, x: T)
    ensures ViewBy(key, view, s + [x]) == ViewBy(key, view, s)[key(x) := view(x)]
  {
    assert (s + [x])[..|s|] == s;
  }

  lemma {:induction false} ViewSize<T, K, V>(key: T -> K, view: T -> V, s: seq<T>)
    requires Distinct(key, s)
    ensures |ViewBy(key, view, s)| == |s|
  {
    if s != [] {
      var init, last := s[..|s| - 1], s[|s| - 1];
      ViewSize(key, view, init);
      ViewLookup(key, view, init, key(last));
    }
  }

  ghost predicate SameAt<K, V>(a: map<K, V>, b: map<K, V>, k: K) {
    (k in a <==> k in b) && (k in a ==> a[k] == b[k])
  }

  lemma SameMap<K(!new), V>(a: map<K, V>, b: map<K, V>)
    requires forall k :: SameAt(a, b, k)
    ensures a == b
  {
    forall k | k in a ensures k in b && a[k] == b[k] { assert SameAt(a, b, k); }
    forall k | k in b ensures k in a { assert SameAt(a, b, k); }
  }

  lemma ViewUpdate<T, K(!new), V>(key: T -> K, view: T -> V, s: seq<T>, i: nat, x: T)
    requires Distinct(key, s) && i < |s| && key(x) == key(s[i])
    ensures ViewBy(key, view, s[i := x]) == ViewBy(key, view, s)[key(x) := view(x)]
  {
    var after, want := ViewBy(key, view, s[i := x]), ViewBy(key, view, s)[key(x) := view(x)];
    forall k
      ensures SameAt(after, want, k)
    {
      LookupUpdate(key, s, i, x, k);
      ViewLookup(key, view, s, k);
      ViewLookup(key, view, s[i := x], k);
    }
    SameMap(after, want);
  }

  ghost function AbsBindings(bs: seq<Binding>): map<int, Binding> {
    ViewBy(PortOf, Whole, bs)
  }

  function Whole(b: Binding): Binding { b }

  ghost function AbsPermission(p: Permission): PermissionSpec {
    PermissionSpec(p.timeout, AbsBindings(p.bindings))
  }

  ghost function AbsPermissions(ps: seq<Permission>): map<IP, PermissionSpec> {
    ViewBy(IpOf, AbsPermission, ps)
  }

  ghost function AbsAllocation(a: Allocation): AllocationSpec {
    AllocationSpec(Map(IpOf, a.permissions), AbsPermissions(a.permissions), a.relayed, a.conn, a.timeout)
  }

  /** The maps a table stands for. */
  ghost function Abs(t: AllocTable): TableSpec {
    ViewBy(TupleOf, AbsAllocation, t)
  }

  // ------------------------------------------------------------ simulation

  lemma AbsPermit(a: Allocation, ip: IP, timeout: Time)
    requires WellFormedAllocation(a)
    ensures AbsAllocation(Permit(a, ip, timeout)) == SpecPermit(AbsAllocation(a), ip, timeout)
  {
    var ps := a.permissions;
    var k := IndexOf(IpOf, ps, ip);
    ViewLookup(IpOf, AbsPermission, ps, ip);
    if k < |ps| {
      ViewUpdate(IpOf, AbsPermission, ps, k, ps[k].(timeout := timeout));
      assert Map(IpOf, ps[k := ps[k].(timeout := timeout)]) == Map(IpOf, ps);
    } else {
      ViewAppend(IpOf, AbsPermission, ps, Permission(ip, timeout, []));
      assert Map(IpOf, ps + [Permission(ip, timeout, [])]) == Map(IpOf, ps) + [ip];
      assert AbsBindings([]) == map[];
    }
  }

  /** Channel use in the map is a search by channel in the list. */
  lemma ChannelUsedIff(bs: seq<Binding>, n: int)
    requires Distinct(PortOf, bs)
    ensures ChannelUsed(AbsBindings(bs), n) <==> Has(ChannelOf, bs, n)
    ensures forall q :: q in AbsBindings(bs) ==> AbsBindings(bs)[q] in bs && AbsBindings(bs)[q].port == q
  {
    HasIff(ChannelOf, bs, n);
    forall q | q in AbsBindings(bs)
      ensures AbsBindings(bs)[q] in bs && AbsBindings(bs)[q].port == q
    {
      ViewLookup(PortOf, Whole, bs, q);
    }
    if Has(ChannelOf, bs, n) {
      var b := Lookup(ChannelOf, bs, n).value;
      LookupMember(PortOf, bs, b);
      ViewLookup(PortOf, Whole, bs, b.port);
      assert AbsBindings(bs)[b.port].channel == n;
    }
  }

  lemma AbsRefreshed(bs: seq<Binding>, j: nat, timeout: Time)
    requires Distinct(PortOf, bs) && Distinct(ChannelOf, bs) && j < |bs|
    ensures AbsBindings(bs[j := bs[j].(timeout := timeout)]) == Refreshed(AbsBindings(bs), bs[j].channel, timeout)
  {
    var b := bs[j].(timeout := timeout);
    var after, want := AbsBindings(bs[j := b]), Refreshed(AbsBindings(bs), b.channel, timeout);
    forall q
      ensures SameAt(after, want, q)
    {
      LookupUpdate(PortOf, bs, j, b, q);
      ViewLookup(PortOf, Whole, bs, q);
      ViewLookup(PortOf, Whole, bs[j := b], q);
      OnlyIndex(PortOf, bs, j);
      if Has(PortOf, bs, q) {
        LookupMember(ChannelOf, bs, Lookup(PortOf, bs, q).value);
        OnlyIndex(ChannelOf, bs, j);
      }
    }
    SameMap(after, want);
  }

  lemma AbsBindPermission(p: Permission, n: int, peer: Addr, timeout: Time)
    requires WellFormedPermission(p) && p.ip == peer.ip && !Conflicts(p, n, peer)
    ensures AbsPermission(BindPermission(p, n, peer.port, timeout))
         == SpecBindPermission(AbsPermission(p), n, peer.port, timeout)
  {
    ChannelUsedIff(p.bindings, n);
    var j := IndexOf(ChannelOf, p.bindings, n);
    if j < |p.bindings| {
      AbsRefreshed(p.bindings, j, timeout);
    } else {
      ViewAppend(PortOf, Whole, p.bindings, Binding(peer.port, n, timeout));
    }
  }

  lemma AbsConflicts(p: Permission, n: int, peer: Addr)
    requires WellFormedPermission(p) && p.ip == peer.ip
    ensures Conflicts(p, n, peer) <==>
      peer.port in AbsPermission(p).bindings && AbsPermission(p).bindings[peer.port].channel != n
  {
    ViewLookup(PortOf, Whole, p.bindings, peer.port);
  }

  lemma AbsBind(a: Allocation, n: int, peer: Addr, timeout: Time)
    requires WellFormedAllocation(a)
    ensures Bind(a, n, peer, timeout).Some? <==> SpecBind(AbsAllocation(a), n, peer, timeout).Some?
    ensures Bind(a, n, peer, timeout).Some? ==>
      AbsAllocation(Bind(a, n, peer, timeout).value) == SpecBind(AbsAllocation(a), n, peer, timeout).value
  {
    var ps := a.permissions;
    var k := IndexOf(IpOf, ps, peer.ip);
    ViewLookup(IpOf, AbsPermission, ps, peer.ip);
    if k == |ps| {
      var b := Binding(peer.port, n, timeout);
      var p := Permission(peer.ip, timeout, [b]);
      ViewAppend(IpOf, AbsPermission, ps, p);
      ViewAppend(PortOf, Whole, [], b);
      assert [] + [b] == [b] && AbsBindings([]) == map[];
      assert Map(IpOf, ps + [p]) == Map(IpOf, ps) + [peer.ip];
    } else {
      AbsConflicts(ps[k], n, peer);
      if !Conflicts(ps[k], n, peer) {
        var p := BindPermission(ps[k], n, peer.port, timeout);
        AbsBindPermission(ps[k], n, peer, timeout);
        ViewUpdate(IpOf, AbsPermission, ps, k, p);
        assert Map(IpOf, ps[k := p]) == Map(IpOf, ps);
      }
    }
  }

  lemma AbsTrim(p: Permission, now: Time)
    requires WellFormedPermission(p)
    ensures AbsPermission(Trim(now)(p)) == SpecTrim(AbsPermission(p), now)
  {
    var after, want := AbsBindings(PruneBindings(p.bindings, now)), SpecTrim(AbsPermission(p), now).bindings;
    forall q
      ensures SameAt(after, want, q)
    {
      LookupFilter(PortOf, LiveBinding(now), p.bindings, q);
      ViewLookup(PortOf, Whole, p.bindings, q);
      ViewLookup(PortOf, Whole, PruneBindings(p.bindings, now), q);
    }
    SameMap(after, want);
  }

  lemma AbsPrunePermissions(a: Allocation, now: Time)
    requires WellFormedAllocation(a)
    ensures AbsPermissions(PrunePermissions(a.permissions, now))
         == SpecPruneAllocation(AbsAllocation(a), now).permissions
  {
    var ps := a.permissions;
    var after, want := AbsPermissions(PrunePermissions(ps, now)), SpecPruneAllocation(AbsAllocation(a), now).permissions;
    forall ip
      ensures SameAt(after, want, ip)
    {
      LookupMap(IpOf, Trim(now), ps, ip);
      LookupFilter(IpOf, LivePermission(now), Map(Trim(now), ps), ip);
      ViewLookup(IpOf, AbsPermission, ps, ip);
      ViewLookup(IpOf, AbsPermission, PrunePermissions(ps, now), ip);
      if Has(IpOf, ps, ip) { AbsTrim(Lookup(IpOf, ps, ip).value, now); }
    }
    SameMap(after, want);
  }

  /** Pruning keeps the surviving IPs in order. */
  lemma {:induction false} PruneOrder(ps: seq<Permission>, now: Time, live: IP -> bool)
    requires forall p :: p in ps ==> (live(p.ip) <==> p.timeout > now)
    ensures Map(IpOf, PrunePermissions(ps, now)) == Filter(live, Map(IpOf, ps))
  {
    if ps != [] {
      var init, p := ps[..|ps| - 1], ps[|ps| - 1];
      assert ps == init + [p];
      PruneOrder(init, now, live);
      FilterMapAppend(LivePermission(now), Trim(now), init, p);
      FilterMapAppend(live, IpOf, init, p);
      assert p in ps;
    }
  }

  lemma AbsPruneAllocation(a: Allocation, now: Time)
    requires WellFormedAllocation(a)
    ensures AbsAllocation(TrimAllocation(now)(a)) == SpecPruneAllocation(AbsAllocation(a), now)
  {
    AbsPrunePermissions(a, now);
    forall p | p in a.permissions
      ensures LiveIp(AbsAllocation(a), now)(p.ip) <==> p.timeout > now
    {
      LookupMember(IpOf, a.permissions, p);
      ViewLookup(IpOf, AbsPermission, a.permissions, p.ip);
    }
    PruneOrder(a.permissions, now, LiveIp(AbsAllocation(a), now));
  }

  // ---------------------------------------------------------------- queries

  lemma AbsBound(a: Allocation, peer: Addr, n: int)
    requires WellFormedAllocation(a)
    ensures BoundTo(AbsAllocation(a), peer, n) <==> BoundIn(a, peer) == Channel(n)
  {
    ViewLookup(IpOf, AbsPermission, a.permissions, peer.ip);
    if Has(IpOf, a.permissions, peer.ip) {
      ViewLookup(PortOf, Whole, Lookup(IpOf, a.permissions, peer.ip).value.bindings, peer.port);
    }
  }

  /** The last permission that binds a channel, and the port it binds. */
  lemma {:induction false} PeerOfLast(ps: seq<Permission>, n: int) returns (k: nat)
    ensures PeerOf(ps, n).None? ==> forall p :: p in ps ==> !Has(ChannelOf, p.bindings, n)
    ensures PeerOf(ps, n).Some? ==> k < |ps| && LastBinder(ps, n, k)
    ensures PeerOf(ps, n).Some? ==> PeerOf(ps, n).value == Addr(ps[k].ip, Lookup(ChannelOf, ps[k].bindings, n).value.port)
  {
    k := 0;
    if ps != [] {
      var init, p := ps[..|ps| - 1], ps[|ps| - 1];
      assert ps == init + [p];
      if Has(ChannelOf, p.bindings, n) {
        k := |ps| - 1;
      } else {
        k := PeerOfLast(init, n);
        assert PeerOf(init, n).Some? ==> ps[k] == init[k];
      }
    }
  }

  ghost predicate LastBinder(ps: seq<Permission>, n: int, k: nat)
    requires k < |ps|
  {
    Has(ChannelOf, ps[k].bindings, n) && forall j :: k < j < |ps| ==> !Has(ChannelOf, ps[j].bindings, n)
  }

  /** A peer is bound to `n` in the list exactly if its own permission has that binding. */
  lemma BoundIffBinding(a: Allocation, k: nat, port: int, n: int)
    requires WellFormedAllocation(a) && k < |a.permissions|
    ensures BoundTo(AbsAllocation(a), Addr(a.permissions[k].ip, port), n)
      <==> Has(ChannelOf, a.permissions[k].bindings, n) && Lookup(ChannelOf, a.permissions[k].bindings, n).value.port == port
  {
    var p := a.permissions[k];
    OnlyIndex(IpOf, a.permissions, k);
    AbsBound(a, Addr(p.ip, port), n);
    assert WellFormedPermission(p);
    if Has(ChannelOf, p.bindings, n) {
      LookupMember(PortOf, p.bindings, Lookup(ChannelOf, p.bindings, n).value);
    }
    if Has(PortOf, p.bindings, port) {
      LookupMember(ChannelOf, p.bindings, Lookup(PortOf, p.bindings, port).value);
    }
  }

  lemma AbsPeerOf(a: Allocation, n: int)
    requires WellFormedAllocation(a)
    ensures PeerOf(a.permissions, n).Some? ==> NewestBound(AbsAllocation(a), PeerOf(a.permissions, n).value, n)
    ensures PeerOf(a.permissions, n).None? ==> forall peer :: !BoundTo(AbsAllocation(a), peer, n)
  {
    var ps, s := a.permissions, AbsAllocation(a);
    var k := PeerOfLast(ps, n);
    if PeerOf(ps, n).Some? {
      var peer := PeerOf(ps, n).value;
      BoundIffBinding(a, k, peer.port, n);
      forall j, port | k < j < |s.order| ensures !BoundTo(s, Addr(s.order[j], port), n) {
        BoundIffBinding(a, j, port, n);
      }
      assert s.order[k] == peer.ip;
    } else {
      forall peer ensures !BoundTo(s, peer, n) {
        ViewLookup(IpOf, AbsPermission, ps, peer.ip);
        if Has(IpOf, ps, peer.ip) {
          BoundIffBinding(a, IndexOf(IpOf, ps, peer.ip), peer.port, n);
        }
      }
    }
  }

  // -------------------------------------------------------------- statistics

  ghost function Tag<A, K>(a: A, ks: set<K>): set<(A, K)> {
    set k | k in ks :: (a, k)
  }

  lemma {:induction false} TagSize<A, K>(a: A, ks: set<K>)
    ensures |Tag(a, ks)| == |ks|
  {
    if ks != {} {
      var k :| k in ks;
      TagSize(a, ks - {k});
      assert Tag(a, ks) == Tag(a, ks - {k}) + {(a, k)};
    }
  }

  ghost function BindingsUnder(u: FiveTuple, ps: map<IP, PermissionSpec>): set<((FiveTuple, IP), int)> {
    set ip, port | ip in ps && port in ps[ip].bindings :: ((u, ip), port)
  }

  lemma InPermissionKeys(m: TableSpec, x: (FiveTuple, IP))
    ensures x in PermissionKeys(m) <==> x.0 in m && x.1 in m[x.0].permissions
  {
  }

  lemma InBindingsUnder(u: FiveTuple, ps: map<IP, PermissionSpec>, x: ((FiveTuple, IP), int))
    ensures x in BindingsUnder(u, ps) <==> x.0.0 == u && x.0.1 in ps && x.1 in ps[x.0.1].bindings
  {
    var ip, port := x.0.1, x.1;
    assert x.0 == (x.0.0, ip);
    assert x == (x.0, port);
    if x.0.0 == u && ip in ps && port in ps[ip].bindings {
      assert ((u, ip), port) in BindingsUnder(u, ps);
    }
  }

  lemma InBindingKeys(m: TableSpec, x: ((FiveTuple, IP), int))
    ensures x in BindingKeys(m) <==> x.0.0 in m && x in BindingsUnder(x.0.0, m[x.0.0].permissions)
  {
  }

  lemma InBindingsUnderGrown(u: FiveTuple, ps: map<IP, PermissionSpec>, ip: IP, p: PermissionSpec, x: ((FiveTuple, IP), int))
    requires ip !in ps
    ensures x in BindingsUnder(u, ps[ip := p]) <==> x in BindingsUnder(u, ps) || x in Tag((u, ip), p.bindings.Keys)
    ensures !(x in BindingsUnder(u, ps) && x in Tag((u, ip), p.bindings.Keys))
  {
    InBindingsUnder(u, ps, x);
    InBindingsUnder(u, ps[ip := p], x);
    InTag((u, ip), p.bindings.Keys, x);
  }

  lemma InTag<A, K>(a: A, ks: set<K>, x: (A, K))
    ensures x in Tag(a, ks) <==> x.0 == a && x.1 in ks
  {
  }

  lemma DisjointUnionSize<T>(before: set<T>, more: set<T>, after: set<T>)
    requires before !! more && after == before + more
    ensures |after| == |before| + |more|
  {
  }

  lemma BindingsUnderGrow(u: FiveTuple, ps: map<IP, PermissionSpec>, ip: IP, p: PermissionSpec)
    requires ip !in ps
    ensures |BindingsUnder(u, ps[ip := p])| == |BindingsUnder(u, ps)| + |p.bindings|
  {
    var before, more, after := BindingsUnder(u, ps), Tag((u, ip), p.bindings.Keys), BindingsUnder(u, ps[ip := p]);
    forall x ensures (x in after <==> x in before || x in more) && !(x in before && x in more) {
      InBindingsUnderGrown(u, ps, ip, p, x);
    }
    DisjointUnionSize(before, more, after);
    TagSize((u, ip), p.bindings.Keys);
  }

  lemma {:induction false} BindingsCounted(u: FiveTuple, ps: seq<Permission>)
    requires Distinct(IpOf, ps) && forall p :: p in ps ==> WellFormedPermission(p)
    ensures |BindingsUnder(u, AbsPermissions(ps))| == CountBindings(ps)
  {
    if ps != [] {
      var init, p := ps[..|ps| - 1], ps[|ps| - 1];
      BindingsCounted(u, init);
      PermissionsSplit(ps);
      BindingsUnderGrow(u, AbsPermissions(init), p.ip, AbsPermission(p));
      assert p in ps;
      ViewSize(PortOf, Whole, p.bindings);
    }
  }

  lemma PermissionsSplit(ps: seq<Permission>)
    requires Distinct(IpOf, ps) && ps != []
    ensures ps[|ps| - 1].ip !in AbsPermissions(ps[..|ps| - 1])
    ensures AbsPermissions(ps)
         == AbsPermissions(ps[..|ps| - 1])[ps[|ps| - 1].ip := AbsPermission(ps[|ps| - 1])]
  {
    var init, p := ps[..|ps| - 1], ps[|ps| - 1];
    assert ps == init + [p] && !Has(IpOf, init, p.ip);
    ViewAppend(IpOf, AbsPermission, init, p);
    ViewLookup(IpOf, AbsPermission, init, p.ip);
  }

  lemma TableSplit(t: AllocTable)
    requires Distinct(TupleOf, t) && t != []
    ensures t[|t| - 1].tuple !in Abs(t[..|t| - 1])
    ensures Abs(t) == Abs(t[..|t| - 1])[t[|t| - 1].tuple := AbsAllocation(t[|t| - 1])]
  {
    var init, a := t[..|t| - 1], t[|t| - 1];
    assert t == init + [a] && !Has(TupleOf, init, a.tuple);
    ViewAppend(TupleOf, AbsAllocation, init, a);
    ViewLookup(TupleOf, AbsAllocation, init, a.tuple);
  }

  lemma PermissionKeysGrow(m: TableSpec, u: FiveTuple, a: AllocationSpec)
    requires u !in m
    ensures |PermissionKeys(m[u := a])| == |PermissionKeys(m)| + |a.permissions|
  {
    var before, after, more := PermissionKeys(m), PermissionKeys(m[u := a]), Tag(u, a.permissions.Keys);
    forall x ensures (x in after <==> x in before || x in more) && !(x in before && x in more) {
      InPermissionKeys(m, x);
      InPermissionKeys(m[u := a], x);
    }
    assert after == before + more && before !! more;
    TagSize(u, a.permissions.Keys);
  }

  lemma BindingKeysGrow(m: TableSpec, u: FiveTuple, a: AllocationSpec)
    requires u !in m
    ensures |BindingKeys(m[u := a])| == |BindingKeys(m)| + |BindingsUnder(u, a.permissions)|
  {
    var before, after, more := BindingKeys(m), BindingKeys(m[u := a]), BindingsUnder(u, a.permissions);
    forall x ensures (x in after <==> x in before || x in more) && !(x in before && x in more) {
      InBindingKeys(m, x);
      InBindingKeys(m[u := a], x);
      InBindingsUnder(u, a.permissions, x);
    }
    assert after == before + more && before !! more;
  }

  /** Stats counts the keys of the three levels of maps. */
  lemma {:induction false} StatsCounted(t: AllocTable)
    requires WellFormed(t)
    ensures Stats(t) == Counts(|Abs(t)|, |PermissionKeys(Abs(t))|, |BindingKeys(Abs(t))|)
  {
    if t == [] {
      assert PermissionKeys(Abs(t)) == {} && BindingKeys(Abs(t)) == {};
    } else {
      var init, a := t[..|t| - 1], t[|t| - 1];
      assert a in t && forall x :: x in init ==> x in t;
      StatsCounted(init);
      TableSplit(t);
      PermissionKeysGrow(Abs(init), a.tuple, AbsAllocation(a));
      BindingKeysGrow(Abs(init), a.tuple, AbsAllocation(a));
      ViewSize(IpOf, AbsPermission, a.permissions);
      BindingsCounted(a.tuple, a.permissions);
    }
  }

  // -------------------------------------------------------------- refinement

  lemma AbsFind(t: AllocTable, u: FiveTuple)
    requires Distinct(TupleOf, t)
    ensures u in Abs(t) <==> Find(t, u).Some?
    ensures u in Abs(t) ==> Abs(t)[u] == AbsAllocation(Find(t, u).value)
  {
    ViewLookup(TupleOf, AbsAllocation, t, u);
  }

  /** What a step does to one entry is what it does to the entry's maps. */
  lemma EntrySimulates(t: AllocTable, op: Op, u: FiveTuple)
    requires WellFormed(t) && Find(t, u).Some?
    requires !op.OpPrune? && !op.OpCreatePermission? && !op.OpChannelBind?
    ensures SameAt(Abs(Step(t, op).0), SpecStep(Abs(t), op), u)
  {
    StepEntries(t, op, u);
    AbsFind(t, u);
    AbsFind(Step(t, op).0, u);
    if op.OpCommit? { AbsFresh(op.tuple, op.timeout); }
  }

  lemma PruneSimulates(t: AllocTable, now: Time, u: FiveTuple)
    requires WellFormed(t) && Find(t, u).Some?
    ensures SameAt(Abs(Prune(t, now)), SpecPrune(Abs(t), now), u)
  {
    FindPrune(t, now, u);
    AbsFind(t, u);
    AbsFind(Prune(t, now), u);
    AbsPruneAllocation(Find(t, u).value, now);
  }

  lemma PermitSimulates(t: AllocTable, op: Op, u: FiveTuple)
    requires WellFormed(t) && Find(t, u).Some? && op.OpCreatePermission?
    ensures SameAt(Abs(Step(t, op).0), SpecStep(Abs(t), op), u)
  {
    StepEntries(t, op, u);
    AbsFind(t, u);
    AbsFind(Step(t, op).0, u);
    if op.tuple == u {
      AbsPermit(Find(t, u).value, op.peer.ip, op.timeout);
    }
  }

  lemma BindSimulates(t: AllocTable, op: Op, u: FiveTuple)
    requires WellFormed(t) && Find(t, u).Some? && op.OpChannelBind?
    ensures SameAt(Abs(Step(t, op).0), SpecStep(Abs(t), op), u)
  {
    StepEntries(t, op, u);
    AbsFind(t, u);
    AbsFind(Step(t, op).0, u);
    AbsBind(Find(t, u).value, op.n, op.peer, op.timeout);
  }

  lemma AbsenceSimulates(t: AllocTable, op: Op, u: FiveTuple)
    requires WellFormed(t) && Find(t, u).None?
    ensures SameAt(Abs(Step(t, op).0), SpecStep(Abs(t), op), u)
  {
    StepEntries(t, op, u);
    AbsFind(t, u);
    AbsFind(Step(t, op).0, u);
    if op.OpReserve? { AbsFresh(op.tuple, op.timeout); }
  }

  lemma AbsFresh(u: FiveTuple, timeout: Time)
    ensures AbsAllocation(Fresh(u, timeout)) == SpecFresh(timeout)
  {
    assert AbsPermissions([]) == map[];
    assert Map(IpOf, []) == [];
  }

  /** One step on the lists is the same step on the maps, with the same answer. */
  lemma StepRefines(t: AllocTable, op: Op)
    requires WellFormed(t)
    ensures Abs(Step(t, op).0) == SpecStep(Abs(t), op)
    ensures SpecAnswer(Abs(t), op, Step(t, op).1)
  {
    forall u ensures SameAt(Abs(Step(t, op).0), SpecStep(Abs(t), op), u) {
      if Find(t, u).None? { AbsenceSimulates(t, op, u); }
      else if op.OpPrune? { PruneSimulates(t, op.now, u); }
      else if op.OpCreatePermission? { PermitSimulates(t, op, u); }
      else if op.OpChannelBind? { BindSimulates(t, op, u); }
      else { EntrySimulates(t, op, u); }
    }
    SameMap(Abs(Step(t, op).0), SpecStep(Abs(t), op));
    AnswerRefines(t, op);
  }

  lemma AnswerRefines(t: AllocTable, op: Op)
    requires WellFormed(t)
    ensures SpecAnswer(Abs(t), op, Step(t, op).1)
  {
    if op.OpStats? {
      StatsCounted(t);
    } else if !op.OpPrune? {
      StepResult(t, op);
      AbsFind(t, op.tuple);
      if Find(t, op.tuple).Some? {
        var a := Find(t, op.tuple).value;
        match op
        case OpChannelBind(_, n, peer, timeout) => AbsBind(a, n, peer, timeout);
        case OpSend(_, peer) => ViewLookup(IpOf, AbsPermission, a.permissions, peer.ip);
        case OpSendBound(_, n) => AbsPeerOf(a, n);
        case OpBound(_, peer) => forall n { AbsBound(a, peer, n); }
        case _ =>
      }
    }
  }

  function SpecRun(m: TableSpec, ops: seq<Op>): TableSpec
    decreases |ops|
  {
    if ops == [] then m else SpecRun(SpecStep(m, ops[0]), ops[1..])
  }

  /** Refinement: in every run the lists behave exactly as the maps do, answer by answer. */
  lemma {:induction false} RunRefines(t: AllocTable, ops: seq<Op>)
    requires WellFormed(t)
    ensures Abs(Run(t, ops)) == SpecRun(Abs(t), ops)
    ensures forall k :: 0 <= k < |ops| ==>
      SpecAnswer(SpecRun(Abs(t), ops[..k]), ops[k], Step(Run(t, ops[..k]), ops[k]).1)
    decreases |ops|
  {
    if ops != [] {
      var t', m' := Step(t, ops[0]).0, SpecStep(Abs(t), ops[0]);
      StepWellFormed(t, ops[0]);
      StepRefines(t, ops[0]);
      RunRefines(t', ops[1..]);
      forall k | 0 <= k < |ops|
        ensures SpecAnswer(SpecRun(Abs(t), ops[..k]), ops[k], Step(Run(t, ops[..k]), ops[k]).1)
      {
        if k > 0 {
          assert ops[..k][1..] == ops[1..][..k - 1] && ops[..k][0] == ops[0];
          assert SpecAnswer(SpecRun(Abs(t'), ops[1..][..k - 1]), ops[1..][k - 1], Step(Run(t', ops[1..][..k - 1]), ops[1..][k - 1]).1);
        }
      }
    }
  }
}
