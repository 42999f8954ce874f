/**
 Laws of the table that span operations: what pruning computes and what it may lose,
 and that a channel is the same in both directions.
 */
module TableExpiry {
  import opened Turn
  import opened Options
  import opened Keyed
  import opened Table
  import opened TableLaws
  import opened TableMap

  // --------------------------------------------------------------- Prune law

  /** What one round of "change, then keep" makes of an element. */
  function Round<T>(f: T -> T, keep: T -> bool, x: T): seq<T> {
    if keep(f(x)) then [f(x)] else []
  }

  lemma {:induction false} RoundAppend<T>(f: T -> T, keep: T -> bool, s: seq<T>, x: T)
    ensures Filter(keep, Map(f, s + [x])) == Filter(keep, Map(f, s)) + Round(f, keep, x)
  {
    FilterMapAppend(keep, f, s, x);
  }

  lemma {:induction false} TwoRoundsAppend<T>(f1: T -> T, k1: T -> bool, f2: T -> T, k2: T -> bool, s: seq<T>, x: T)
    ensures Filter(k2, Map(f2, Filter(k1, Map(f1, s + [x]))))
         == Filter(k2, Map(f2, Filter(k1, Map(f1, s)))) + (if k1(f1(x)) then Round(f2, k2, f1(x)) else [])
  {
    RoundAppend(f1, k1, s, x);
    var once := Filter(k1, Map(f1, s));
    if k1(f1(x)) {
      RoundAppend(f2, k2, once, f1(x));
    } else {
      assert once + [] == once;
    }
  }

  /** Two rounds are one, if they are one on each element. */
  lemma {:induction false} TwoRounds<T>(f1: T -> T, k1: T -> bool, f2: T -> T, k2: T -> bool,
                                        f: T -> T, k: T -> bool, s: seq<T>)
    requires forall x :: x in s ==>
      (k(f(x)) <==> k1(f1(x)) && k2(f2(f1(x)))) && (k(f(x)) ==> f(x) == f2(f1(x)))
    ensures Filter(k2, Map(f2, Filter(k1, Map(f1, s)))) == Filter(k, Map(f, s))
  {
    if s != [] {
      var init, x := s[..|s| - 1], s[|s| - 1];
      TwoRounds(f1, k1, f2, k2, f, k, init);
      assert s == init + [x] && x in s;
      TwoRoundsAppend(f1, k1, f2, k2, init, x);
      RoundAppend(f, k, init, x);
      assert (if k1(f1(x)) then Round(f2, k2, f1(x)) else []) == Round(f, k, x);
    }
  }

  lemma PruneBindingsTwice(bs: seq<Binding>, t1: Time, t2: Time)
    ensures PruneBindings(PruneBindings(bs, t1), t2) == PruneBindings(bs, MaxTime(t1, t2))
  {
    TwoRounds(Whole, LiveBinding(t1), Whole, LiveBinding(t2), Whole, LiveBinding(MaxTime(t1, t2)), bs);
    forall s: seq<Binding> ensures Map(Whole, s) == s {}
  }

  lemma PrunePermissionsTwice(ps: seq<Permission>, t1: Time, t2: Time)
    ensures PrunePermissions(PrunePermissions(ps, t1), t2) == PrunePermissions(ps, MaxTime(t1, t2))
  {
    var t := MaxTime(t1, t2);
    forall p | p in ps ensures Trim(t)(p) == Trim(t2)(Trim(t1)(p)) {
      PruneBindingsTwice(p.bindings, t1, t2);
    }
    TwoRounds(Trim(t1), LivePermission(t1), Trim(t2), LivePermission(t2), Trim(t), LivePermission(t), ps);
  }

  /** Pruning twice is pruning once, at the later time. */
  lemma PruneTwice(t: AllocTable, t1: Time, t2: Time)
    ensures Prune(Prune(t, t1), t2) == Prune(t, MaxTime(t1, t2))
  {
    var later := MaxTime(t1, t2);
    forall a | a in t ensures TrimAllocation(later)(a) == TrimAllocation(t2)(TrimAllocation(t1)(a)) {
      PrunePermissionsTwice(a.permissions, t1, t2);
    }
    TwoRounds(TrimAllocation(t1), LiveAllocation(t1), TrimAllocation(t2), LiveAllocation(t2),
              TrimAllocation(later), LiveAllocation(later), t);
  }

  // ------------------------------------------------------ no live binding lost

  predicate Present(t: AllocTable, u: FiveTuple, ip: IP, b: Binding) {
    PermissionAt(t, u, ip).Some? && b in PermissionAt(t, u, ip).value.bindings
  }

  /** A binding survives a prune exactly if it, its permission and its allocation all do. */
  lemma PrunePresent(t: AllocTable, now: Time, u: FiveTuple, ip: IP, b: Binding)
    requires WellFormed(t)
    ensures Present(Prune(t, now), u, ip, b) <==>
      && Present(t, u, ip, b)
      && b.timeout > now && PermissionAt(t, u, ip).value.timeout > now && Find(t, u).value.timeout > now
  {
    FindPrune(t, now, u);
    if Find(t, u).Some? {
      var ps := Find(t, u).value.permissions;
      LookupMap(IpOf, Trim(now), ps, ip);
      LookupFilter(IpOf, LivePermission(now), Map(Trim(now), ps), ip);
      if PermissionAt(t, u, ip).Some? {
        FilterMember(LiveBinding(now), PermissionAt(t, u, ip).value.bindings, b);
      }
    }
  }

  /** Some live binding of a live allocation is dropped by a prune at `now`. */
  ghost predicate Loses(t: AllocTable, now: Time) {
    exists u, ip, b ::
      Present(t, u, ip, b) && b.timeout > now && Find(t, u).value.timeout > now && !Present(Prune(t, now), u, ip, b)
  }

  /** No permission times out before both its allocation and a binding under it. */
  ghost predicate Covered(t: AllocTable) {
    forall u, ip, b :: Present(t, u, ip, b) ==>
      b.timeout <= PermissionAt(t, u, ip).value.timeout
      || Find(t, u).value.timeout <= PermissionAt(t, u, ip).value.timeout
  }

  /** No prune loses a live binding, exactly if every permission covers its bindings. */
  lemma NothingLiveLost(t: AllocTable)
    requires WellFormed(t)
    ensures (forall now :: !Loses(t, now)) <==> Covered(t)
  {
    if Covered(t) {
      forall now ensures !Loses(t, now) {
        forall u, ip, b { PrunePresent(t, now, u, ip, b); }
      }
    } else {
      var u, ip, b :| Present(t, u, ip, b)
        && b.timeout > PermissionAt(t, u, ip).value.timeout
        && Find(t, u).value.timeout > PermissionAt(t, u, ip).value.timeout;
      var now := PermissionAt(t, u, ip).value.timeout;
      PrunePresent(t, now, u, ip, b);
      assert Loses(t, now);
    }
  }

  /** Every binding times out no later than its permission. */
  predicate BindingsWithin(u: FiveTuple, p: Permission) {
    forall b :: b in p.bindings ==> b.timeout <= p.timeout
  }

  ghost predicate Within(t: AllocTable) {
    Everywhere(BindingsWithin, t)
  }

  /** A CreatePermission that does not cut a binding short; any other step. */
  ghost predicate Careful(t: AllocTable, op: Op) {
    op.OpCreatePermission? ==>
      forall b :: Present(t, op.tuple, op.peer.ip, b) ==> b.timeout <= op.timeout
  }

  lemma WithinPrunable()
    ensures Prunable(BindingsWithin)
  {
    forall u, p, now | BindingsWithin(u, p) ensures BindingsWithin(u, Trim(now)(p)) {
      forall b | b in Trim(now)(p).bindings ensures b in p.bindings { FilterMember(LiveBinding(now), p.bindings, b); }
    }
  }

  /** What a step touches keeps its bindings within its timeout, if the step is careful. */
  lemma TouchedWithin(t: AllocTable, op: Op)
    requires Within(t) && Touched(t, op).Some? && Careful(t, op)
    ensures BindingsWithin(op.tuple, Touched(t, op).value)
  {
    assert AllIn(BindingsWithin, op.tuple, Find(t, op.tuple));
    var p := PermissionAt(t, op.tuple, op.peer.ip);
    if p.Some? {
      assert BindingsWithin(op.tuple, p.value);
      assert op.OpCreatePermission? ==> forall b :: b in p.value.bindings ==> Present(t, op.tuple, op.peer.ip, b);
    }
  }

  /** A careless step breaks it. */
  lemma CarelessBreaks(t: AllocTable, op: Op)
    requires WellFormed(t) && Within(t) && !Careful(t, op)
    ensures !Within(Step(t, op).0)
  {
    StepEntries(t, op, op.tuple);
    assert AllIn(BindingsWithin, op.tuple, Find(t, op.tuple));
    var b :| Present(t, op.tuple, op.peer.ip, b) && b.timeout > op.timeout;
    PermitAll(BindingsWithin, t, op, Find(t, op.tuple).value);
    assert !BindingsWithin(op.tuple, Touched(t, op).value);
    assert !AllIn(BindingsWithin, op.tuple, Find(Step(t, op).0, op.tuple));
  }

  /** A step keeps bindings within their permissions, exactly if it is careful. */
  lemma StepWithin(t: AllocTable, op: Op)
    requires WellFormed(t) && Within(t)
    ensures Within(Step(t, op).0) <==> Careful(t, op)
  {
    if Careful(t, op) {
      WithinPrunable();
      if Touched(t, op).Some? { TouchedWithin(t, op); }
      StepEverywhere(BindingsWithin, t, op);
    } else {
      CarelessBreaks(t, op);
    }
  }

  ghost predicate CarefulRun(t: AllocTable, ops: seq<Op>)
    decreases |ops|
  {
    ops == [] || (Careful(t, ops[0]) && CarefulRun(Step(t, ops[0]).0, ops[1..]))
  }

  /**
   In any run whose CreatePermissions cut no binding short, a prune drops a binding
   of a surviving allocation only if that binding itself has expired.
   */
  lemma {:induction false} CarefulRunLosesNothing(t: AllocTable, ops: seq<Op>, now: Time)
    requires WellFormed(t) && Within(t) && CarefulRun(t, ops)
    ensures Within(Run(t, ops)) && !Loses(Run(t, ops), now)
    decreases |ops|
  {
    if ops == [] {
      forall u, ip, b | Present(t, u, ip, b) ensures b.timeout <= PermissionAt(t, u, ip).value.timeout {
        assert AllIn(BindingsWithin, u, Find(t, u));
      }
      NothingLiveLost(t);
    } else {
      StepWellFormed(t, ops[0]);
      StepWithin(t, ops[0]);
      CarefulRunLosesNothing(Step(t, ops[0]).0, ops[1..], now);
    }
  }

  // ---------------------------------------------------------------------- echo

  /** Channel `n` is also bound under a permission of `a` newer than that of `ip`. */
  ghost predicate TakenByNewer(a: Allocation, ip: IP, n: int) {
    exists j :: IndexOf(IpOf, a.permissions, ip) < j < |a.permissions| && Has(ChannelOf, a.permissions[j].bindings, n)
  }

  /** Data sent on a channel goes to a peer whose data comes back on that channel. */
  lemma Echo(t: AllocTable, ops: seq<Op>, u: FiveTuple, n: int)
    requires WellFormed(t)
    ensures var s := Run(t, ops);
      SendBound(s, u, n).Sent? ==> Bound(s, u, SendBound(s, u, n).to) == Channel(n)
  {
    RunWellFormed(t, ops);
    var s := Run(t, ops);
    if SendBound(s, u, n).Sent? {
      var a := Find(s, u).value;
      AbsPeerOf(a, n);
      AbsBound(a, PeerOf(a.permissions, n).value, n);
    }
  }

  /** Where data comes back on a channel, data sent on it returns, unless a newer permission took the channel. */
  lemma EchoBack(t: AllocTable, ops: seq<Op>, u: FiveTuple, peer: Addr, n: int)
    requires WellFormed(t)
    requires Bound(Run(t, ops), u, peer) == Channel(n)
    ensures Find(Run(t, ops), u).Some?
    ensures var s := Run(t, ops); var a := Find(s, u).value;
      (SendBound(s, u, n).Sent? && SendBound(s, u, n).to == peer)
      <==> a.conn.Some? && !TakenByNewer(a, peer.ip, n)
  {
    RunWellFormed(t, ops);
    var a := Find(Run(t, ops), u).value;
    var ps := a.permissions;
    var i := IndexOf(IpOf, ps, peer.ip);
    AbsBound(a, peer, n);
    BoundIffBinding(a, i, peer.port, n);
    var k := PeerOfLast(ps, n);
    if k != i {
      assert ps[k].ip != peer.ip;
      assert TakenByNewer(a, peer.ip, n);
    }
  }
}
