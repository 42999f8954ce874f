/**
 What every step keeps. A step on the whole table is a step on one client's entry,
 and the structural invariant holds in every interleaving.
 */
module TableLaws {
  import opened Turn
  import opened Options
  import opened Keyed
  import opened Table

  lemma FindPut(t: AllocTable, a: Allocation, u: FiveTuple)
    requires Distinct(TupleOf, t)
    ensures Distinct(TupleOf, Put(t, a))
    ensures Find(Put(t, a), u) == if u == a.tuple && Find(t, u).Some? then Some(a) else Find(t, u)
    ensures forall x :: x in Put(t, a) ==> x in t || x == a
  {
    var i := IndexOf(TupleOf, t, a.tuple);
    if i < |t| {
      LookupUpdate(TupleOf, t, i, a, u);
    }
  }

  lemma FindRemove(t: AllocTable, v: FiveTuple, u: FiveTuple)
    requires Distinct(TupleOf, t)
    ensures Distinct(TupleOf, Remove(t, v).0)
    ensures Find(Remove(t, v).0, u) == if u == v then None else Find(t, u)
  {
    LookupFilter(TupleOf, Other(v), t, u);
  }

  lemma RemoveAnswers(t: AllocTable, u: FiveTuple)
    ensures Remove(t, u).1 == if Find(t, u).Some? then Done else Mismatch
  {
    if Find(t, u).Some? {
      FilterMember(Same(u), t, Find(t, u).value);
    } else {
      forall a | a in t ensures TupleOf(a) != u {}
      FilterNone(Same(u), t);
    }
  }

  lemma FindPrune(t: AllocTable, now: Time, u: FiveTuple)
    requires Distinct(TupleOf, t)
    ensures Distinct(TupleOf, Prune(t, now))
    ensures Find(Prune(t, now), u)
         == if Find(t, u).Some? && Find(t, u).value.timeout > now
            then Some(TrimAllocation(now)(Find(t, u).value)) else None
  {
    LookupMap(TupleOf, TrimAllocation(now), t, u);
    LookupFilter(TupleOf, LiveAllocation(now), Map(TrimAllocation(now), t), u);
  }

  /** Pruning goes entry by entry. */
  lemma PruneNext(t: AllocTable, i: nat, now: Time)
    requires i < |t|
    ensures Prune(t[..i + 1], now) == Prune(t[..i], now) + (if t[i].timeout > now then [TrimAllocation(now)(t[i])] else [])
    ensures Expired(t[..i + 1], now) == Expired(t[..i], now) + (if t[i].timeout > now then [] else [TrimAllocation(now)(t[i])])
  {
    assert t[..i + 1] == t[..i] + [t[i]];
    FilterMapAppend(LiveAllocation(now), TrimAllocation(now), t[..i], t[i]);
    FilterMapAppend(DeadAllocation(now), TrimAllocation(now), t[..i], t[i]);
  }

  // ----------------------------------------------- one entry at a time

  /** What a step does to the entry of `u`, given that entry alone. */
  function EntryStep(e: Option<Allocation>, op: Op, u: FiveTuple): Option<Allocation> {
    if op.OpPrune? then
      if e.Some? && e.value.timeout > op.now then Some(TrimAllocation(op.now)(e.value)) else None
    else if op.OpStats? || op.tuple != u then e
    else match op
      case OpReserve(_, timeout) => if e.None? && u.proto == PROTO_UDP then Some(Fresh(u, timeout)) else e
      case OpCommit(_, timeout, relayed, conn) =>
        if e.Some? then Some(Fresh(u, timeout).(relayed := relayed, conn := Some(conn))) else None
      case OpRemove(_) => None
      case OpCreatePermission(_, peer, timeout) => if e.Some? then Some(Permit(e.value, peer.ip, timeout)) else None
      case OpChannelBind(_, n, peer, timeout) =>
        if e.Some? && ValidChannel(n) && Bind(e.value, n, peer, timeout).Some?
        then Bind(e.value, n, peer, timeout) else e
      case OpRefresh(_, timeout) => if e.Some? then Some(e.value.(timeout := timeout)) else None
      case _ => e
  }

  /** The answer `u` gets, given its entry alone. */
  function EntryResult(e: Option<Allocation>, op: Op, u: FiveTuple): Result
    requires !op.OpPrune? && !op.OpStats? && op.tuple == u
  {
    match op
    case OpReserve(_, _) => if u.proto != PROTO_UDP then NotImplemented else if e.Some? then Mismatch else Done
    case OpCommit(_, _, _, _) => Done
    case OpRemove(_) => if e.Some? then Done else Mismatch
    case OpCreatePermission(_, _, _) => if e.Some? then Done else Mismatch
    case OpChannelBind(_, n, peer, timeout) =>
      if !ValidChannel(n) then InvalidChannel
      else if e.Some? && Bind(e.value, n, peer, timeout).Some? then Done else Mismatch
    case OpRefresh(_, _) => Done
    case OpSend(_, peer) => if e.Some? then SendIn(e.value, peer) else PermissionNotFound
    case OpSendBound(_, n) => if e.Some? then SendBoundIn(e.value, n) else PermissionNotFound
    case OpBound(_, peer) => if e.Some? then BoundIn(e.value, peer) else Mismatch
  }

  lemma ReserveEntries(t: AllocTable, v: FiveTuple, timeout: Time, u: FiveTuple)
    requires Distinct(TupleOf, t)
    ensures Distinct(TupleOf, Reserve(t, v, timeout).0)
    ensures Find(Reserve(t, v, timeout).0, u) == EntryStep(Find(t, u), OpReserve(v, timeout), u)
  {
    if v.proto == PROTO_UDP && !Has(TupleOf, t, v) {
      LookupAppend(TupleOf, t, Fresh(v, timeout), u);
    }
  }

  lemma BindEntries(t: AllocTable, v: FiveTuple, n: int, peer: Addr, timeout: Time, u: FiveTuple)
    requires Distinct(TupleOf, t)
    ensures Distinct(TupleOf, ChannelBind(t, v, n, peer, timeout).0)
    ensures Find(ChannelBind(t, v, n, peer, timeout).0, u)
         == EntryStep(Find(t, u), OpChannelBind(v, n, peer, timeout), u)
  {
    if Find(t, v).Some? && Bind(Find(t, v).value, n, peer, timeout).Some? {
      FindPut(t, Bind(Find(t, v).value, n, peer, timeout).value, u);
    }
  }

  lemma PermitEntries(t: AllocTable, v: FiveTuple, peer: Addr, timeout: Time, u: FiveTuple)
    requires Distinct(TupleOf, t)
    ensures Distinct(TupleOf, CreatePermission(t, v, peer, timeout).0)
    ensures Find(CreatePermission(t, v, peer, timeout).0, u)
         == EntryStep(Find(t, u), OpCreatePermission(v, peer, timeout), u)
  {
    if Find(t, v).Some? {
      FindPut(t, Permit(Find(t, v).value, peer.ip, timeout), u);
    }
  }

  /** A step on the table is a step on each entry by itself. */
  lemma StepEntries(t: AllocTable, op: Op, u: FiveTuple)
    requires Distinct(TupleOf, t)
    ensures Distinct(TupleOf, Step(t, op).0)
    ensures Find(Step(t, op).0, u) == EntryStep(Find(t, u), op, u)
  {
    match op
    case OpReserve(v, timeout) => ReserveEntries(t, v, timeout, u);
    case OpCommit(v, timeout, relayed, conn) =>
      FindPut(t, Fresh(v, timeout).(relayed := relayed, conn := Some(conn)), u);
    case OpRemove(v) => FindRemove(t, v, u);
    case OpCreatePermission(v, peer, timeout) => PermitEntries(t, v, peer, timeout, u);
    case OpChannelBind(v, n, peer, timeout) => BindEntries(t, v, n, peer, timeout, u);
    case OpRefresh(v, timeout) =>
      if Find(t, v).Some? { FindPut(t, Find(t, v).value.(timeout := timeout), u); }
    case OpPrune(now) => FindPrune(t, now, u);
    case _ =>
  }

  lemma StepResult(t: AllocTable, op: Op)
    requires !op.OpPrune? && !op.OpStats?
    ensures Step(t, op).1 == EntryResult(Find(t, op.tuple), op, op.tuple)
  {
    match op
    case OpRemove(v) => RemoveAnswers(t, v);
    case _ =>
  }

  // ------------------------------------------------- structural invariant

  lemma PermitWellFormed(a: Allocation, ip: IP, timeout: Time)
    requires WellFormedAllocation(a)
    ensures WellFormedAllocation(Permit(a, ip, timeout))
  {
    var k := IndexOf(IpOf, a.permissions, ip);
    if k < |a.permissions| {
      var p := a.permissions[k].(timeout := timeout);
      LookupUpdate(IpOf, a.permissions, k, p, ip);
      assert a.permissions[k] in a.permissions && WellFormedPermission(p);
    } else {
      LookupAppend(IpOf, a.permissions, Permission(ip, timeout, []), ip);
    }
  }

  lemma BindPermissionWellFormed(p: Permission, n: int, peer: Addr, timeout: Time)
    requires WellFormedPermission(p) && p.ip == peer.ip && ValidChannel(n) && !Conflicts(p, n, peer)
    ensures WellFormedPermission(BindPermission(p, n, peer.port, timeout))
  {
    var j := IndexOf(ChannelOf, p.bindings, n);
    if j < |p.bindings| {
      var b := p.bindings[j].(timeout := timeout);
      LookupUpdate(ChannelOf, p.bindings, j, b, n);
      LookupUpdate(PortOf, p.bindings, j, b, b.port);
    } else {
      // No conflict and no binding of channel n: the port is unbound too.
      var b := Binding(peer.port, n, timeout);
      LookupAppend(ChannelOf, p.bindings, b, n);
      LookupAppend(PortOf, p.bindings, b, peer.port);
    }
  }

  lemma BindWellFormed(a: Allocation, n: int, peer: Addr, timeout: Time)
    requires WellFormedAllocation(a) && ValidChannel(n)
    ensures Bind(a, n, peer, timeout).Some? ==> WellFormedAllocation(Bind(a, n, peer, timeout).value)
  {
    var k := IndexOf(IpOf, a.permissions, peer.ip);
    if k == |a.permissions| {
      LookupAppend(IpOf, a.permissions, Permission(peer.ip, timeout, [Binding(peer.port, n, timeout)]), peer.ip);
    } else if !Conflicts(a.permissions[k], n, peer) {
      BindPermissionWellFormed(a.permissions[k], n, peer, timeout);
      LookupUpdate(IpOf, a.permissions, k, BindPermission(a.permissions[k], n, peer.port, timeout), peer.ip);
    }
  }

  lemma TrimWellFormed(p: Permission, now: Time)
    requires WellFormedPermission(p)
    ensures WellFormedPermission(Trim(now)(p))
  {
    FilterDistinct(PortOf, LiveBinding(now), p.bindings);
    FilterDistinct(ChannelOf, LiveBinding(now), p.bindings);
    forall b | b in PruneBindings(p.bindings, now) ensures b in p.bindings {
      FilterMember(LiveBinding(now), p.bindings, b);
    }
  }

  /** A pruned permission is the trimmed form of one that was there. */
  lemma PrunedPermission(ps: seq<Permission>, now: Time, q: Permission) returns (p: Permission)
    requires q in PrunePermissions(ps, now)
    ensures p in ps && p.timeout > now && q == Trim(now)(p)
  {
    FilterMember(LivePermission(now), Map(Trim(now), ps), q);
    var i :| 0 <= i < |ps| && Map(Trim(now), ps)[i] == q;
    p := ps[i];
  }

  lemma TrimAllocationWellFormed(a: Allocation, now: Time)
    requires WellFormedAllocation(a)
    ensures WellFormedAllocation(TrimAllocation(now)(a))
  {
    LookupMap(IpOf, Trim(now), a.permissions, NoIP);
    FilterDistinct(IpOf, LivePermission(now), Map(Trim(now), a.permissions));
    forall q | q in PrunePermissions(a.permissions, now) ensures WellFormedPermission(q) {
      var p := PrunedPermission(a.permissions, now, q);
      TrimWellFormed(p, now);
    }
  }

  lemma EntryStepWellFormed(e: Option<Allocation>, op: Op, u: FiveTuple)
    requires e.Some? ==> WellFormedAllocation(e.value)
    ensures EntryStep(e, op, u).Some? ==> WellFormedAllocation(EntryStep(e, op, u).value)
  {
    if e.Some? {
      match op
      case OpPrune(now) => TrimAllocationWellFormed(e.value, now);
      case OpCreatePermission(_, peer, timeout) => PermitWellFormed(e.value, peer.ip, timeout);
      case OpChannelBind(_, n, peer, timeout) => if ValidChannel(n) { BindWellFormed(e.value, n, peer, timeout); }
      case _ =>
    }
  }

  /** Every step keeps the structural invariant. */
  lemma StepWellFormed(t: AllocTable, op: Op)
    requires WellFormed(t)
    ensures WellFormed(Step(t, op).0)
  {
    var t' := Step(t, op).0;
    forall a | a in t' ensures WellFormedAllocation(a) {
      StepEntries(t, op, a.tuple);
      LookupMember(TupleOf, t', a);
      EntryStepWellFormed(Find(t, a.tuple), op, a.tuple);
    }
    StepEntries(t, op, FiveTuple(ZERO_ADDR, ZERO_ADDR, 0));
  }

  /** The structural invariant holds after every interleaving of the two-phase New with everything else. */
  lemma {:induction false} RunWellFormed(t: AllocTable, ops: seq<Op>)
    requires WellFormed(t)
    ensures WellFormed(Run(t, ops))
    decreases |ops|
  {
    if ops != [] {
      StepWellFormed(t, ops[0]);
      RunWellFormed(Step(t, ops[0]).0, ops[1..]);
    }
  }

  /** At most 16384 channel bindings fit under one permission. */
  lemma BindingsBounded(t: AllocTable, ops: seq<Op>, a: Allocation, p: Permission)
    requires WellFormed(t)
    requires a in Run(t, ops) && p in a.permissions
    ensures |p.bindings| <= 16384
  {
    RunWellFormed(t, ops);
    CountKeys(ChannelOf, p.bindings);
    var used, all := Keys(ChannelOf, p.bindings), Interval(MIN_CHANNEL, MAX_CHANNEL + 1);
    assert used <= all by {
      forall i | 0 <= i < |p.bindings| ensures ChannelOf(p.bindings[i]) in all {
        assert p.bindings[i] in p.bindings;
      }
    }
    assert all == used + (all - used);
  }

  ghost function Interval(lo: int, hi: int): (s: set<int>)
    requires lo <= hi
    ensures forall n :: n in s <==> lo <= n < hi
    ensures |s| == hi - lo
    decreases hi - lo
  {
    if lo == hi then {} else Interval(lo, hi - 1) + {hi - 1}
  }

  // ------------------------------------------- invariants of permissions

  /** The permission of `ip` under `u`. */
  function PermissionAt(t: AllocTable, u: FiveTuple, ip: IP): Option<Permission> {
    match Find(t, u)
    case None => None
    case Some(a) => Lookup(IpOf, a.permissions, ip)
  }

  /** A property of a client's permission. */
  type Claim = (FiveTuple, Permission) -> bool

  ghost predicate AllIn(claim: Claim, u: FiveTuple, e: Option<Allocation>) {
    e.Some? ==> forall p :: p in e.value.permissions ==> claim(u, p)
  }

  /** Every permission of every client has the property. */
  ghost predicate Everywhere(claim: Claim, t: AllocTable) {
    forall u :: AllIn(claim, u, Find(t, u))
  }

  /** Dropping bindings does not take the property away. */
  ghost predicate Prunable(claim: Claim) {
    forall u, p, now :: claim(u, p) ==> claim(u, Trim(now)(p))
  }

  /** The permission a step makes or changes, if it touches one. */
  function Touched(t: AllocTable, op: Op): Option<Permission> {
    match op
    case OpCreatePermission(u, peer, timeout) =>
      (match PermissionAt(t, u, peer.ip)
       case None => Some(Permission(peer.ip, timeout, []))
       case Some(p) => Some(p.(timeout := timeout)))
    case OpChannelBind(u, n, peer, timeout) =>
      (match PermissionAt(t, u, peer.ip)
       case None => Some(Permission(peer.ip, timeout, [Binding(peer.port, n, timeout)]))
       case Some(p) => Some(BindPermission(p, n, peer.port, timeout)))
    case _ => None
  }

  lemma PermitAll(claim: Claim, t: AllocTable, op: Op, a: Allocation)
    requires op.OpCreatePermission? && Find(t, op.tuple) == Some(a) && AllIn(claim, op.tuple, Some(a))
    ensures AllIn(claim, op.tuple, Some(Permit(a, op.peer.ip, op.timeout))) <==> claim(op.tuple, Touched(t, op).value)
  {
    var ps, k := Permit(a, op.peer.ip, op.timeout).permissions, IndexOf(IpOf, a.permissions, op.peer.ip);
    assert ps[k] == Touched(t, op).value && ps[k] in ps;
    assert forall i :: 0 <= i < |a.permissions| && i != k ==> ps[i] == a.permissions[i];
  }

  lemma BindAll(claim: Claim, t: AllocTable, op: Op, a: Allocation)
    requires op.OpChannelBind? && Find(t, op.tuple) == Some(a) && AllIn(claim, op.tuple, Some(a))
    requires claim(op.tuple, Touched(t, op).value)
    ensures AllIn(claim, op.tuple, Bind(a, op.n, op.peer, op.timeout))
  {
    var r, k := Bind(a, op.n, op.peer, op.timeout), IndexOf(IpOf, a.permissions, op.peer.ip);
    if r.Some? {
      assert r.value.permissions[k] == Touched(t, op).value;
      assert forall i :: 0 <= i < |a.permissions| && i != k ==> r.value.permissions[i] == a.permissions[i];
    }
  }

  lemma TrimAll(claim: Claim, u: FiveTuple, a: Allocation, now: Time)
    requires Prunable(claim) && AllIn(claim, u, Some(a))
    ensures AllIn(claim, u, Some(TrimAllocation(now)(a)))
  {
    forall q | q in PrunePermissions(a.permissions, now) ensures claim(u, q) {
      var p := PrunedPermission(a.permissions, now, q);
    }
  }

  /** A step keeps a property of permissions if what it touches has it. */
  lemma StepEverywhere(claim: Claim, t: AllocTable, op: Op)
    requires Distinct(TupleOf, t) && Prunable(claim) && Everywhere(claim, t)
    requires Touched(t, op).Some? ==> claim(op.tuple, Touched(t, op).value)
    ensures Distinct(TupleOf, Step(t, op).0) && Everywhere(claim, Step(t, op).0)
  {
    forall u ensures Distinct(TupleOf, Step(t, op).0) && AllIn(claim, u, Find(Step(t, op).0, u)) {
      StepEntries(t, op, u);
      assert AllIn(claim, u, Find(t, u));
      if Find(t, u).Some? {
        var a := Find(t, u).value;
        if op.OpPrune? { TrimAll(claim, u, a, op.now); }
        else if op.OpCreatePermission? && op.tuple == u { PermitAll(claim, t, op, a); }
        else if op.OpChannelBind? && op.tuple == u { BindAll(claim, t, op, a); }
      }
    }
    StepEntries(t, op, FiveTuple(ZERO_ADDR, ZERO_ADDR, 0));
  }

  // ------------------------------------------------------ non-interference

  predicate Concerns(op: Op, u: FiveTuple) {
    op.OpPrune? || (!op.OpStats? && op.tuple == u)
  }

  /** The steps of client `u`, and the prunes. */
  function Own(ops: seq<Op>, u: FiveTuple): seq<Op> {
    if ops == [] then []
    else (if Concerns(ops[0], u) then [ops[0]] else []) + Own(ops[1..], u)
  }

  /** The answers `u` gets in a run, in order. */
  function Answers(t: AllocTable, ops: seq<Op>, u: FiveTuple): seq<Result>
    decreases |ops|
  {
    if ops == [] then []
    else
      (if Concerns(ops[0], u) then [Step(t, ops[0]).1] else [])
      + Answers(Step(t, ops[0]).0, ops[1..], u)
  }

  lemma StepsAgree(t: AllocTable, t': AllocTable, op: Op, u: FiveTuple)
    requires Distinct(TupleOf, t) && Distinct(TupleOf, t') && Find(t, u) == Find(t', u) && Concerns(op, u)
    ensures Distinct(TupleOf, Step(t, op).0) && Distinct(TupleOf, Step(t', op).0)
    ensures Find(Step(t, op).0, u) == Find(Step(t', op).0, u)
    ensures Step(t, op).1 == Step(t', op).1
  {
    StepEntries(t, op, u);
    StepEntries(t', op, u);
    if !op.OpPrune? {
      StepResult(t, op);
      StepResult(t', op);
    }
  }

  lemma StepElsewhere(t: AllocTable, op: Op, u: FiveTuple)
    requires Distinct(TupleOf, t) && !Concerns(op, u)
    ensures Distinct(TupleOf, Step(t, op).0)
    ensures Find(Step(t, op).0, u) == Find(t, u)
  {
    StepEntries(t, op, u);
  }

  lemma {:induction false} RunsAgree(t: AllocTable, t': AllocTable, ops: seq<Op>, u: FiveTuple)
    requires Distinct(TupleOf, t) && Distinct(TupleOf, t') && Find(t, u) == Find(t', u)
    ensures Find(Run(t, ops), u) == Find(Run(t', Own(ops, u)), u)
    ensures Answers(t, ops, u) == Answers(t', Own(ops, u), u)
    decreases |ops|
  {
    if ops != [] {
      var op, rest := ops[0], Own(ops[1..], u);
      if Concerns(op, u) {
        StepsAgree(t, t', op, u);
        RunsAgree(Step(t, op).0, Step(t', op).0, ops[1..], u);
        assert Own(ops, u)[0] == op && Own(ops, u)[1..] == rest;
      } else {
        StepElsewhere(t, op, u);
        RunsAgree(Step(t, op).0, t', ops[1..], u);
        assert Own(ops, u) == rest;
      }
    }
  }

  /**
   No client sees another: in every interleaved run a client's entry and all its
   answers are those of the run that keeps only its own steps and the prunes.
   */
  lemma NonInterference(t: AllocTable, ops: seq<Op>, u: FiveTuple)
    requires WellFormed(t)
    ensures Find(Run(t, ops), u) == Find(Run(t, Own(ops, u)), u)
    ensures Answers(t, ops, u) == Answers(t, Own(ops, u), u)
  {
    RunsAgree(t, t, ops, u);
  }
}
