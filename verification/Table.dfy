/**
 The allocation table as a value: a list of allocations, each with a list of
 permissions, each with a list of channel bindings. Every operation of
 `internal/allocator/allocator.go` that runs under one hold of the table lock is
 one function here from a table to a table and a result.
 */
module Table {
  import opened Turn
  import opened Options
  import opened Keyed

  datatype Binding = Binding(port: int, channel: int, timeout: Time)

  datatype Permission = Permission(ip: IP, timeout: Time, bindings: seq<Binding>)

  /** `conn` is None between the reservation of the 5-tuple and the commit of its socket. */
  datatype Allocation = Allocation(
    tuple: FiveTuple,
    permissions: seq<Permission>,
    relayed: Addr,
    conn: Option<Conn>,
    timeout: Time)

  type AllocTable = seq<Allocation>

  datatype Result =
    | Done
    | Mismatch
    | NotImplemented
    | InvalidChannel
    | PermissionNotFound
    | Sent(conn: Conn, to: Addr)
    | Channel(number: int)
    | Counts(allocations: nat, permissions: nat, bindings: nat)

  function TupleOf(a: Allocation): FiveTuple { a.tuple }
  function IpOf(p: Permission): IP { p.ip }
  function PortOf(b: Binding): int { b.port }
  function ChannelOf(b: Binding): int { b.channel }

  // ---------------------------------------------------------------- structure

  ghost predicate WellFormedPermission(p: Permission) {
    && Distinct(PortOf, p.bindings)
    && Distinct(ChannelOf, p.bindings)
    && forall b :: b in p.bindings ==> ValidChannel(b.channel)
  }

  ghost predicate WellFormedAllocation(a: Allocation) {
    && Distinct(IpOf, a.permissions)
    && forall p :: p in a.permissions ==> WellFormedPermission(p)
  }

  /** 5-tuples, permission IPs, and per permission both ports and channels are distinct. */
  ghost predicate WellFormed(t: AllocTable) {
    && Distinct(TupleOf, t)
    && forall a :: a in t ==> WellFormedAllocation(a)
  }

  /** The allocation of a 5-tuple, if it has one. */
  function Find(t: AllocTable, tuple: FiveTuple): Option<Allocation> {
    Lookup(TupleOf, t, tuple)
  }

  /** Replaces the allocation of `a.tuple`; does nothing if there is none. */
  function Put(t: AllocTable, a: Allocation): AllocTable {
    var i := IndexOf(TupleOf, t, a.tuple);
    if i < |t| then t[i := a] else t
  }

  // -------------------------------------------------------------------- New

  function Fresh(tuple: FiveTuple, timeout: Time): Allocation {
    Allocation(tuple, [], ZERO_ADDR, None, timeout)
  }

  /** The first lock hold of New: claim the 5-tuple. */
  function Reserve(t: AllocTable, tuple: FiveTuple, timeout: Time): (AllocTable, Result) {
    if tuple.proto != PROTO_UDP then (t, NotImplemented)
    else if Has(TupleOf, t, tuple) then (t, Mismatch)
    else (t + [Fresh(tuple, timeout)], Done)
  }

  /**
   The second lock hold of New: the allocation built at reservation time, now
   with its socket, overwrites whatever the 5-tuple maps to by then.
   */
  function Commit(t: AllocTable, tuple: FiveTuple, timeout: Time, relayed: Addr, conn: Conn): AllocTable {
    Put(t, Fresh(tuple, timeout).(relayed := relayed, conn := Some(conn)))
  }

  // ------------------------------------------------------------------ Remove

  function Other(tuple: FiveTuple): Allocation -> bool { (a: Allocation) => a.tuple != tuple }
  function Same(tuple: FiveTuple): Allocation -> bool { (a: Allocation) => a.tuple == tuple }

  function Remove(t: AllocTable, tuple: FiveTuple): (AllocTable, Result) {
    (Filter(Other(tuple), t), if Filter(Same(tuple), t) == [] then Mismatch else Done)
  }

  // ------------------------------------------------------------------- Prune

  function LiveBinding(now: Time): Binding -> bool { (b: Binding) => b.timeout > now }
  function LivePermission(now: Time): Permission -> bool { (p: Permission) => p.timeout > now }
  function LiveAllocation(now: Time): Allocation -> bool { (a: Allocation) => a.timeout > now }
  function DeadAllocation(now: Time): Allocation -> bool { (a: Allocation) => a.timeout <= now }

  function PruneBindings(bs: seq<Binding>, now: Time): seq<Binding> {
    Filter(LiveBinding(now), bs)
  }

  function Trim(now: Time): Permission -> Permission {
    (p: Permission) => p.(bindings := PruneBindings(p.bindings, now))
  }

  function PrunePermissions(ps: seq<Permission>, now: Time): seq<Permission> {
    Filter(LivePermission(now), Map(Trim(now), ps))
  }

  function TrimAllocation(now: Time): Allocation -> Allocation {
    (a: Allocation) => a.(permissions := PrunePermissions(a.permissions, now))
  }

  /** The nested, order-preserving filter "times out after `now`" at all three levels. */
  function Prune(t: AllocTable, now: Time): AllocTable {
    Filter(LiveAllocation(now), Map(TrimAllocation(now), t))
  }

  /** The allocations a prune drops. */
  function Expired(t: AllocTable, now: Time): AllocTable {
    Filter(DeadAllocation(now), Map(TrimAllocation(now), t))
  }

  // -------------------------------------------------------------- Permissions

  function Permit(a: Allocation, ip: IP, timeout: Time): Allocation {
    var k := IndexOf(IpOf, a.permissions, ip);
    a.(permissions :=
      if k < |a.permissions| then a.permissions[k := a.permissions[k].(timeout := timeout)]
      else a.permissions + [Permission(ip, timeout, [])])
  }

  function CreatePermission(t: AllocTable, tuple: FiveTuple, peer: Addr, timeout: Time): (AllocTable, Result) {
    match Find(t, tuple)
    case None => (t, Mismatch)
    case Some(a) => (Put(t, Permit(a, peer.ip, timeout)), Done)
  }

  // ----------------------------------------------------------------- Bindings

  /** A binding of the peer's own port to another channel. */
  predicate Conflicts(p: Permission, n: int, peer: Addr) {
    p.ip == peer.ip &&
    var j := IndexOf(PortOf, p.bindings, peer.port);
    j < |p.bindings| && p.bindings[j].channel != n
  }

  /** Refreshes the binding of channel `n`, whatever its port, or adds one for `port`. */
  function BindPermission(p: Permission, n: int, port: int, timeout: Time): Permission {
    var j := IndexOf(ChannelOf, p.bindings, n);
    Permission(p.ip, MaxTime(p.timeout, timeout),
      if j < |p.bindings| then p.bindings[j := p.bindings[j].(timeout := timeout)]
      else p.bindings + [Binding(port, n, timeout)])
  }

  function Bind(a: Allocation, n: int, peer: Addr, timeout: Time): Option<Allocation> {
    var k := IndexOf(IpOf, a.permissions, peer.ip);
    if k == |a.permissions| then
      Some(a.(permissions := a.permissions + [Permission(peer.ip, timeout, [Binding(peer.port, n, timeout)])]))
    else if Conflicts(a.permissions[k], n, peer) then None
    else Some(a.(permissions := a.permissions[k := BindPermission(a.permissions[k], n, peer.port, timeout)]))
  }

  function ChannelBind(t: AllocTable, tuple: FiveTuple, n: int, peer: Addr, timeout: Time): (AllocTable, Result) {
    if !ValidChannel(n) then (t, InvalidChannel)
    else match Find(t, tuple)
      case None => (t, Mismatch)
      case Some(a) =>
        match Bind(a, n, peer, timeout)
        case None => (t, Mismatch)
        case Some(b) => (Put(t, b), Done)
  }

  function Refresh(t: AllocTable, tuple: FiveTuple, timeout: Time): (AllocTable, Result) {
    match Find(t, tuple)
    case None => (t, Done)
    case Some(a) => (Put(t, a.(timeout := timeout)), Done)
  }

  // ------------------------------------------------------------------ Queries

  /** The channel bound to a peer address. */
  function BoundIn(a: Allocation, peer: Addr): Result {
    var k := IndexOf(IpOf, a.permissions, peer.ip);
    if k == |a.permissions| then Mismatch
    else
      var bs := a.permissions[k].bindings;
      var j := IndexOf(PortOf, bs, peer.port);
      if j < |bs| then Channel(bs[j].channel) else Mismatch
  }

  function Bound(t: AllocTable, tuple: FiveTuple, peer: Addr): Result {
    match Find(t, tuple)
    case None => Mismatch
    case Some(a) => BoundIn(a, peer)
  }

  function SendIn(a: Allocation, peer: Addr): Result {
    if Has(IpOf, a.permissions, peer.ip) && a.conn.Some? then Sent(a.conn.value, peer) else PermissionNotFound
  }

  function Send(t: AllocTable, tuple: FiveTuple, peer: Addr): Result {
    match Find(t, tuple)
    case None => PermissionNotFound
    case Some(a) => SendIn(a, peer)
  }

  /** The peer address of channel `n`; the last permission that binds it wins. */
  function PeerOf(ps: seq<Permission>, n: int): Option<Addr> {
    if ps == [] then None
    else
      var p := ps[|ps| - 1];
      var j := IndexOf(ChannelOf, p.bindings, n);
      if j < |p.bindings| then Some(Addr(p.ip, p.bindings[j].port)) else PeerOf(ps[..|ps| - 1], n)
  }

  function SendBoundIn(a: Allocation, n: int): Result {
    match PeerOf(a.permissions, n)
    case Some(peer) => if a.conn.Some? then Sent(a.conn.value, peer) else PermissionNotFound
    case None => PermissionNotFound
  }

  function SendBound(t: AllocTable, tuple: FiveTuple, n: int): Result {
    match Find(t, tuple)
    case None => PermissionNotFound
    case Some(a) => SendBoundIn(a, n)
  }

  function CountBindings(ps: seq<Permission>): nat {
    if ps == [] then 0 else CountBindings(ps[..|ps| - 1]) + |ps[|ps| - 1].bindings|
  }

  function Stats(t: AllocTable): (r: Result)
    ensures r.Counts?
  {
    if t == [] then Counts(0, 0, 0)
    else
      var init := Stats(t[..|t| - 1]);
      var ps := t[|t| - 1].permissions;
      Counts(init.allocations + 1, init.permissions + |ps|, init.bindings + CountBindings(ps))
  }

  // --------------------------------------------------------------------- Runs

  /** One atomic step on the table: one hold of its lock. */
  datatype Op =
    | OpReserve(tuple: FiveTuple, timeout: Time)
    | OpCommit(tuple: FiveTuple, timeout: Time, relayed: Addr, conn: Conn)
    | OpRemove(tuple: FiveTuple)
    | OpCreatePermission(tuple: FiveTuple, peer: Addr, timeout: Time)
    | OpChannelBind(tuple: FiveTuple, n: int, peer: Addr, timeout: Time)
    | OpRefresh(tuple: FiveTuple, timeout: Time)
    | OpSend(tuple: FiveTuple, peer: Addr)
    | OpSendBound(tuple: FiveTuple, n: int)
    | OpBound(tuple: FiveTuple, peer: Addr)
    | OpPrune(now: Time)
    | OpStats

  function Step(t: AllocTable, op: Op): (AllocTable, Result) {
    match op
    case OpReserve(tuple, timeout) => Reserve(t, tuple, timeout)
    case OpCommit(tuple, timeout, relayed, conn) => (Commit(t, tuple, timeout, relayed, conn), Done)
    case OpRemove(tuple) => Remove(t, tuple)
    case OpCreatePermission(tuple, peer, timeout) => CreatePermission(t, tuple, peer, timeout)
    case OpChannelBind(tuple, n, peer, timeout) => ChannelBind(t, tuple, n, peer, timeout)
    case OpRefresh(tuple, timeout) => Refresh(t, tuple, timeout)
    case OpSend(tuple, peer) => (t, Send(t, tuple, peer))
    case OpSendBound(tuple, n) => (t, SendBound(t, tuple, n))
    case OpBound(tuple, peer) => (t, Bound(t, tuple, peer))
    case OpPrune(now) => (Prune(t, now), Done)
    case OpStats => (t, Stats(t))
  }

  /** The table after a run; any interleaving of any clients' steps is such a list. */
  function Run(t: AllocTable, ops: seq<Op>): AllocTable
    decreases |ops|
  {
    if ops == [] then t else Run(Step(t, ops[0]).0, ops[1..])
  }
}
