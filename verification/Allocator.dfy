/**
 The allocator: the table held in a mutable list, searched, overwritten and compacted
 in place. Each method is one hold of the table lock and does to the list what the
 function of the same name in module Table does to a value.
 */
module Allocators {
  import opened Turn
  import opened Options
  import opened Keyed
  import opened Table
  import opened TableLaws

  class Allocator {
    var allocs: seq<Allocation>

    ghost predicate Valid()
      reads this
    {
      WellFormed(allocs)
    }

    constructor ()
      ensures Valid() && allocs == []
    {
      allocs := [];
    }

    /** The first lock hold of New. */
    method Reserve(tuple: FiveTuple, timeout: Time) returns (r: Result)
      requires Valid()
      modifies this
      ensures Valid()
      ensures (allocs, r) == Table.Reserve(old(allocs), tuple, timeout)
    {
      StepWellFormed(allocs, OpReserve(tuple, timeout));
      if tuple.proto != PROTO_UDP {
        return NotImplemented;
      }
      var i := 0;
      while i < |allocs|
        invariant 0 <= i <= |allocs|
        invariant forall j :: 0 <= j < i ==> allocs[j].tuple != tuple
        invariant allocs == old(allocs)
      {
        if allocs[i].tuple == tuple {
          return Mismatch;
        }
        i := i + 1;
      }
      allocs := allocs + [Allocation(tuple, [], ZERO_ADDR, None, timeout)];
      r := Done;
    }

    /** The second lock hold of New. */
    method Commit(tuple: FiveTuple, timeout: Time, relayed: Addr, conn: Conn)
      requires Valid()
      modifies this
      ensures Valid()
      ensures allocs == Table.Commit(old(allocs), tuple, timeout, relayed, conn)
    {
      StepWellFormed(allocs, OpCommit(tuple, timeout, relayed, conn));
      var i := 0;
      while i < |allocs|
        invariant 0 <= i <= |allocs|
        invariant forall j :: 0 <= j < i ==> allocs[j].tuple != tuple
        invariant allocs == old(allocs)
      {
        if allocs[i].tuple == tuple {
          allocs := allocs[i := Allocation(tuple, [], relayed, Some(conn), timeout)];
          return;
        }
        i := i + 1;
      }
    }

    /**
     Compacts the list over the entries of `tuple`. The removed ones are returned: their
     server address and protocol are what the relayed-address allocator is told to free.
     */
    method Remove(tuple: FiveTuple) returns (r: Result, toDealloc: seq<Allocation>)
      requires Valid()
      modifies this
      ensures Valid()
      ensures (allocs, r) == Table.Remove(old(allocs), tuple)
      ensures toDealloc == Filter(Same(tuple), old(allocs))
    {
      StepWellFormed(allocs, OpRemove(tuple));
      var newAllocs: seq<Allocation> := [];
      toDealloc := [];
      var i := 0;
      while i < |allocs|
        invariant 0 <= i <= |allocs|
        invariant allocs == old(allocs)
        invariant newAllocs == Filter(Other(tuple), allocs[..i])
        invariant toDealloc == Filter(Same(tuple), allocs[..i])
        invariant |newAllocs| <= i
      {
        assert allocs[..i + 1] == allocs[..i] + [allocs[i]];
        FilterAppend(Other(tuple), allocs[..i], allocs[i]);
        FilterAppend(Same(tuple), allocs[..i], allocs[i]);
        if allocs[i].tuple != tuple {
          newAllocs := newAllocs + [allocs[i]];
        } else {
          toDealloc := toDealloc + [allocs[i]];
        }
        i := i + 1;
      }
      assert allocs[..i] == allocs;
      var n := |newAllocs|;
      allocs := newAllocs + allocs[n..];
      allocs := allocs[..n];
      r := if |toDealloc| == 0 then Mismatch else Done;
    }

    /** The bindings of one permission that outlive `now`. */
    method KeepBindings(bindings: seq<Binding>, now: Time) returns (newBindings: seq<Binding>)
      ensures newBindings == PruneBindings(bindings, now)
    {
      newBindings := [];
      for j := 0 to |bindings|
        invariant newBindings == PruneBindings(bindings[..j], now)
      {
        assert bindings[..j + 1] == bindings[..j] + [bindings[j]];
        FilterAppend(LiveBinding(now), bindings[..j], bindings[j]);
        if bindings[j].timeout > now {
          newBindings := newBindings + [bindings[j]];
        }
      }
      assert bindings[..|bindings|] == bindings;
    }

    method KeepPermissions(permissions: seq<Permission>, now: Time) returns (newPermissions: seq<Permission>)
      ensures newPermissions == PrunePermissions(permissions, now)
      ensures |newPermissions| <= |permissions|
    {
      newPermissions := [];
      for k := 0 to |permissions|
        invariant newPermissions == PrunePermissions(permissions[..k], now)
      {
        var p := permissions[k];
        assert permissions[..k + 1] == permissions[..k] + [p];
        FilterMapAppend(LivePermission(now), Trim(now), permissions[..k], p);
        var newBindings := KeepBindings(p.bindings, now);
        p := p.(bindings := newBindings);
        if p.timeout > now {
          newPermissions := newPermissions + [p];
        }
      }
      assert permissions[..|permissions|] == permissions;
    }

    /** Compacts all three levels of the list in place. */
    method Prune(now: Time) returns (toDealloc: seq<Allocation>)
      requires Valid()
      modifies this
      ensures Valid()
      ensures allocs == Table.Prune(old(allocs), now)
      ensures toDealloc == Expired(old(allocs), now)
    {
      ghost var before := allocs;
      StepWellFormed(before, OpPrune(now));
      var newAllocs: seq<Allocation> := [];
      toDealloc := [];
      var i := 0;
      while i < |allocs|
        invariant 0 <= i <= |allocs| == |before|
        invariant forall j :: i <= j < |allocs| ==> allocs[j] == before[j]
        invariant newAllocs == Table.Prune(before[..i], now)
        invariant toDealloc == Expired(before[..i], now)
      {
        PruneNext(before, i, now);
        var newPermissions := KeepPermissions(allocs[i].permissions, now);
        var n := |newPermissions|;
        var permissions := newPermissions + allocs[i].permissions[n..];
        allocs := allocs[i := allocs[i].(permissions := permissions[..n])];
        if allocs[i].timeout > now {
          newAllocs := newAllocs + [allocs[i]];
        } else {
          toDealloc := toDealloc + [allocs[i]];
        }
        i := i + 1;
      }
      assert before[..i] == before;
      var n := |newAllocs|;
      allocs := newAllocs + allocs[n..];
      allocs := allocs[..n];
    }

    method CreatePermission(tuple: FiveTuple, peer: Addr, timeout: Time) returns (r: Result)
      requires Valid()
      modifies this
      ensures Valid()
      ensures (allocs, r) == Table.CreatePermission(old(allocs), tuple, peer, timeout)
    {
      StepWellFormed(allocs, OpCreatePermission(tuple, peer, timeout));
      var found, updated := false, false;
      var i := 0;
      while i < |allocs|
        invariant 0 <= i <= |allocs|
        invariant forall j :: 0 <= j < i ==> allocs[j].tuple != tuple
        invariant allocs == old(allocs) && !found && !updated
      {
        if allocs[i].tuple != tuple {
          i := i + 1;
          continue;
        }
        found := true;
        var k := 0;
        while k < |allocs[i].permissions|
          invariant 0 <= k <= |allocs[i].permissions|
          invariant forall j :: 0 <= j < k ==> allocs[i].permissions[j].ip != peer.ip
          invariant allocs == old(allocs) && !updated
        {
          if allocs[i].permissions[k].ip == peer.ip {
            var p := allocs[i].permissions[k].(timeout := timeout);
            allocs := allocs[i := allocs[i].(permissions := allocs[i].permissions[k := p])];
            updated := true;
            break;
          }
          k := k + 1;
        }
        if !updated {
          allocs := allocs[i := allocs[i].(permissions := allocs[i].permissions + [Permission(peer.ip, timeout, [])])];
        }
        break;
      }
      r := if found then Done else Mismatch;
    }

    /** Whether the peer's port is bound to another channel. */
    method Conflicting(p: Permission, n: int, peer: Addr) returns (r: bool)
      ensures r == Conflicts(p, n, peer)
    {
      if p.ip != peer.ip || |p.bindings| == 0 {
        return false;
      }
      for j := 0 to |p.bindings|
        invariant forall i :: 0 <= i < j ==> p.bindings[i].port != peer.port
      {
        if p.bindings[j].port == peer.port {
          return p.bindings[j].channel != n;
        }
      }
      r := false;
    }

    /** Refreshes the binding of the channel, or adds one. */
    method BindUnder(p: Permission, n: int, port: int, timeout: Time) returns (q: Permission)
      ensures q == BindPermission(p, n, port, timeout)
    {
      q := p;
      var updated := false;
      var j := 0;
      while j < |q.bindings|
        invariant 0 <= j <= |q.bindings|
        invariant forall i :: 0 <= i < j ==> p.bindings[i].channel != n
        invariant q == p && !updated
      {
        if q.bindings[j].channel == n {
          q := q.(bindings := q.bindings[j := q.bindings[j].(timeout := timeout)]);
          if timeout > q.timeout {
            q := q.(timeout := timeout);
          }
          updated := true;
          break;
        }
        j := j + 1;
      }
      if !updated {
        if timeout > q.timeout {
          q := q.(timeout := timeout);
        }
        q := q.(bindings := q.bindings + [Binding(port, n, timeout)]);
      }
    }

    /** Binds under entry `i`: under the permission of the peer's IP, or a new one; false on a conflict. */
    method BindEntry(i: nat, n: int, peer: Addr, timeout: Time) returns (ok: bool)
      requires i < |allocs|
      modifies this
      ensures ok == Bind(old(allocs[i]), n, peer, timeout).Some?
      ensures allocs == if ok then old(allocs)[i := Bind(old(allocs[i]), n, peer, timeout).value] else old(allocs)
    {
      var found := false;
      var k := 0;
      while k < |allocs[i].permissions|
        invariant i < |allocs| && 0 <= k <= |allocs[i].permissions|
        invariant forall j :: 0 <= j < k ==> allocs[i].permissions[j].ip != peer.ip
        invariant allocs == old(allocs) && !found
      {
        if allocs[i].permissions[k].ip != peer.ip {
          k := k + 1;
          continue;
        }
        var conflict := Conflicting(allocs[i].permissions[k], n, peer);
        if conflict {
          return false;
        }
        var p := BindUnder(allocs[i].permissions[k], n, peer.port, timeout);
        allocs := allocs[i := allocs[i].(permissions := allocs[i].permissions[k := p])];
        found := true;
        break;
      }
      if !found {
        var p := Permission(peer.ip, timeout, [Binding(peer.port, n, timeout)]);
        allocs := allocs[i := allocs[i].(permissions := allocs[i].permissions + [p])];
      }
      ok := true;
    }

    method ChannelBind(tuple: FiveTuple, n: int, peer: Addr, timeout: Time) returns (r: Result)
      requires Valid()
      modifies this
      ensures Valid()
      ensures (allocs, r) == Table.ChannelBind(old(allocs), tuple, n, peer, timeout)
    {
      StepWellFormed(allocs, OpChannelBind(tuple, n, peer, timeout));
      if !ValidChannel(n) {
        return InvalidChannel;
      }
      var allocFound := false;
      var i := 0;
      ghost var at := IndexOf(TupleOf, allocs, tuple);
      // The search goes on after the match; distinct 5-tuples make it the only one.
      while i < |allocs|
        invariant 0 <= i <= |allocs| == |old(allocs)|
        invariant allocFound <==> at < i
        invariant i <= at ==> allocs == old(allocs)
        invariant allocFound ==> at < |allocs| && Bind(old(allocs)[at], n, peer, timeout).Some?
        invariant allocFound ==> allocs == old(allocs)[at := Bind(old(allocs)[at], n, peer, timeout).value]
      {
        if allocs[i].tuple != tuple {
          i := i + 1;
          continue;
        }
        assert i == at;
        var ok := BindEntry(i, n, peer, timeout);
        if !ok {
          return Mismatch;
        }
        allocFound := true;
        i := i + 1;
      }
      r := if allocFound then Done else Mismatch;
    }

    method Refresh(tuple: FiveTuple, timeout: Time) returns (r: Result)
      requires Valid()
      modifies this
      ensures Valid()
      ensures (allocs, r) == Table.Refresh(old(allocs), tuple, timeout)
    {
      StepWellFormed(allocs, OpRefresh(tuple, timeout));
      var i := 0;
      while i < |allocs|
        invariant 0 <= i <= |allocs|
        invariant forall j :: 0 <= j < i ==> allocs[j].tuple != tuple
        invariant allocs == old(allocs)
      {
        if allocs[i].tuple == tuple {
          allocs := allocs[i := allocs[i].(timeout := timeout)];
          break;
        }
        i := i + 1;
      }
      r := Done;
    }

    method Bound(tuple: FiveTuple, peer: Addr) returns (r: Result)
      requires Valid()
      ensures r == Table.Bound(allocs, tuple, peer)
    {
      ghost var at := IndexOf(TupleOf, allocs, tuple);
      for i := 0 to |allocs|
        invariant at < i ==> BoundIn(allocs[at], peer) == Mismatch
      {
        if allocs[i].tuple != tuple {
          continue;
        }
        assert i == at && allocs[i] in allocs;
        var ps := allocs[i].permissions;
        ghost var of := IndexOf(IpOf, ps, peer.ip);
        for k := 0 to |ps|
          invariant of < k ==> BoundIn(allocs[at], peer) == Mismatch
        {
          if ps[k].ip != peer.ip {
            continue;
          }
          assert k == of;
          for j := 0 to |ps[k].bindings|
            invariant forall m :: 0 <= m < j ==> ps[k].bindings[m].port != peer.port
          {
            if ps[k].bindings[j].port == peer.port {
              return Channel(ps[k].bindings[j].channel);
            }
          }
        }
      }
      r := Mismatch;
    }

    method Send(tuple: FiveTuple, peer: Addr) returns (r: Result)
      requires Valid()
      ensures r == Table.Send(allocs, tuple, peer)
    {
      var conn: Option<Conn> := None;
      ghost var at := IndexOf(TupleOf, allocs, tuple);
      for i := 0 to |allocs|
        invariant i <= at ==> conn == None
        invariant at < i ==> conn == if Has(IpOf, allocs[at].permissions, peer.ip) then allocs[at].conn else None
      {
        if allocs[i].tuple != tuple {
          continue;
        }
        assert i == at && allocs[i] in allocs;
        var ps := allocs[i].permissions;
        ghost var of := IndexOf(IpOf, ps, peer.ip);
        for k := 0 to |ps|
          invariant conn == if of < k then allocs[at].conn else None
        {
          if peer.ip == ps[k].ip {
            conn := allocs[i].conn;
          }
        }
      }
      r := match conn
        case None => PermissionNotFound
        case Some(c) => Sent(c, peer);
    }

    /** The last permission, and in it the last binding, of the channel wins. */
    method SendBound(tuple: FiveTuple, n: int) returns (r: Result)
      requires Valid()
      ensures r == Table.SendBound(allocs, tuple, n)
    {
      var conn: Option<Conn> := None;
      var addr := ZERO_ADDR;
      ghost var at := IndexOf(TupleOf, allocs, tuple);
      for i := 0 to |allocs|
        invariant i <= at ==> conn == None
        invariant at < i ==> Chosen(allocs[at], allocs[at].permissions, n, conn, addr)
      {
        if allocs[i].tuple != tuple {
          continue;
        }
        assert i == at && allocs[i] in allocs;
        var ps := allocs[i].permissions;
        for k := 0 to |ps|
          invariant Chosen(allocs[at], ps[..k], n, conn, addr)
        {
          assert ps[..k + 1][..k] == ps[..k];
          var bs := ps[k].bindings;
          assert ps[k] in ps && WellFormedPermission(ps[k]);
          ghost var of := IndexOf(ChannelOf, bs, n);
          for j := 0 to |bs|
            invariant j <= of ==> Chosen(allocs[at], ps[..k], n, conn, addr)
            invariant of < j ==> conn == allocs[at].conn && addr == Addr(ps[k].ip, bs[of].port)
          {
            if bs[j].channel == n {
              conn := allocs[i].conn;
              addr := Addr(ps[k].ip, bs[j].port);
            }
          }
        }
        assert ps[..|ps|] == ps;
      }
      r := match conn
        case None => PermissionNotFound
        case Some(c) => Sent(c, addr);
    }

    /** What the loop of SendBound holds after the permissions `ps` of `a`. */
    static ghost predicate Chosen(a: Allocation, ps: seq<Permission>, n: int, conn: Option<Conn>, addr: Addr) {
      match PeerOf(ps, n)
      case None => conn == None
      case Some(peer) => conn == a.conn && addr == peer
    }

    method Stats() returns (r: Result)
      ensures r == Table.Stats(allocs)
    {
      var permissions: nat, bindings: nat := 0, 0;
      for i := 0 to |allocs|
        invariant Table.Stats(allocs[..i]) == Counts(i, permissions, bindings)
      {
        var ps := allocs[i].permissions;
        assert allocs[..i + 1][..i] == allocs[..i];
        ghost var before := bindings;
        permissions := permissions + |ps|;
        for k := 0 to |ps|
          invariant bindings == before + CountBindings(ps[..k])
        {
          assert ps[..k + 1][..k] == ps[..k];
          bindings := bindings + |ps[k].bindings|;
        }
        assert ps[..|ps|] == ps;
      }
      assert allocs[..|allocs|] == allocs;
      r := Counts(|allocs|, permissions, bindings);
    }
  }
}
