/**
 Limits that hold in every run of the server: the peer filter is never bypassed, and
 permissions and bindings never outlive the lifetimes the handlers give them.
 */
module ServerLimits {
  import opened Turn
  import opened Options
  import opened Keyed
  import opened Table
  import opened TableLaws
  import opened Filtering
  import opened Requests
  import opened ServerRuns

  /** The peer IPs a client may have, and the times no permission and no binding may go beyond. */
  datatype Limit = Limit(peers: (FiveTuple, IP) -> bool, permission: Option<Time>, binding: Option<Time>)

  predicate Before(timeout: Time, bound: Option<Time>) {
    bound.Some? ==> timeout <= bound.value
  }

  predicate Respects(l: Limit, u: FiveTuple, p: Permission) {
    && l.peers(u, p.ip) && Before(p.timeout, l.permission)
    && forall b :: b in p.bindings ==> Before(b.timeout, l.binding)
  }

  function ClaimOf(l: Limit): Claim {
    (u: FiveTuple, p: Permission) => Respects(l, u, p)
  }

  /** A step that asks for nothing beyond the limit. */
  predicate Proper(l: Limit, op: Op) {
    match op
    case OpCreatePermission(u, peer, timeout) => l.peers(u, peer.ip) && Before(timeout, l.permission)
    case OpChannelBind(u, _, peer, timeout) =>
      l.peers(u, peer.ip) && Before(timeout, l.permission) && Before(timeout, l.binding)
    case _ => true
  }

  lemma LimitPrunable(l: Limit)
    ensures Prunable(ClaimOf(l))
  {
    forall u, p, now | ClaimOf(l)(u, p) ensures ClaimOf(l)(u, Trim(now)(p)) {
      forall b | b in Trim(now)(p).bindings ensures b in p.bindings { FilterMember(LiveBinding(now), p.bindings, b); }
    }
  }

  lemma StepRespects(l: Limit, t: AllocTable, op: Op)
    requires Distinct(TupleOf, t) && Everywhere(ClaimOf(l), t) && Proper(l, op)
    ensures Distinct(TupleOf, Step(t, op).0) && Everywhere(ClaimOf(l), Step(t, op).0)
  {
    LimitPrunable(l);
    if Touched(t, op).Some? {
      assert AllIn(ClaimOf(l), op.tuple, Find(t, op.tuple));
      var p := PermissionAt(t, op.tuple, op.peer.ip);
      assert p.Some? ==> Respects(l, op.tuple, p.value);
    }
    StepEverywhere(ClaimOf(l), t, op);
  }

  /** What goes out goes to a peer the client may have. */
  lemma SendsWithin(l: Limit, t: AllocTable, u: FiveTuple, peer: Addr, n: int)
    requires Everywhere(ClaimOf(l), t)
    ensures Send(t, u, peer).Sent? ==> l.peers(u, Send(t, u, peer).to.ip)
    ensures SendBound(t, u, n).Sent? ==> l.peers(u, SendBound(t, u, n).to.ip)
  {
    assert AllIn(ClaimOf(l), u, Find(t, u));
    if Find(t, u).Some? {
      var ps := Find(t, u).value.permissions;
      PeerOfWithin(l, u, ps, n);
      assert Lookup(IpOf, ps, peer.ip).Some? ==> Respects(l, u, Lookup(IpOf, ps, peer.ip).value);
    }
  }

  lemma {:induction false} PeerOfWithin(l: Limit, u: FiveTuple, ps: seq<Permission>, n: int)
    requires forall p :: p in ps ==> Respects(l, u, p)
    ensures PeerOf(ps, n).Some? ==> l.peers(u, PeerOf(ps, n).value.ip)
  {
    if ps != [] {
      PeerOfWithin(l, u, ps[..|ps| - 1], n);
      assert ps[|ps| - 1] in ps;
    }
  }

  // ------------------------------------------------------------ server runs

  /** The request asks for nothing beyond the limit. */
  predicate Admissible(l: Limit, m: Message, cfg: Config, u: FiveTuple, now: Time) {
    var plan := PlanOf(cfg, m, u, now);
    plan.Do? ==> Proper(l, plan.op)
  }

  /** Neither the table, nor what was sent, nor any request goes beyond the limit. */
  ghost predicate Limited(l: Limit, s: State) {
    && Distinct(TupleOf, s.table) && Everywhere(ClaimOf(l), s.table)
    && (forall i :: 0 <= i < |s.jobs| ==> Admissible(l, s.jobs[i].m, s.jobs[i].cfg, s.jobs[i].u, s.jobs[i].now))
    && (forall o :: o in s.sent ==> l.peers(o.u, o.relay.to.ip))
  }

  lemma NextSent(srv: Server, l: Limit, s: State, a: Event, o: Outgoing)
    requires Enabled(s, a) && Limited(l, s) && o in Next(srv, s, a).sent
    ensures l.peers(o.u, o.relay.to.ip)
  {
    if a.Handle? {
      var plan := PlanOf(s.jobs[a.i].cfg, s.jobs[a.i].m, s.jobs[a.i].u, s.jobs[a.i].now);
      if plan.Do? && plan.op.OpSend? { SendsWithin(l, s.table, plan.op.tuple, plan.op.peer, 0); }
    } else if a.ChannelData? {
      SendsWithin(l, s.table, a.u, ZERO_ADDR, a.n);
    }
  }

  lemma NextLimited(srv: Server, l: Limit, s: State, a: Event)
    requires Enabled(s, a) && Limited(l, s)
    requires a.Receive? ==> Admissible(l, a.m, a.cfg, a.u, a.now)
    ensures Limited(l, Next(srv, s, a))
  {
    NextTable(srv, s, a);
    if TableStep(s, a).Some? { StepRespects(l, s.table, TableStep(s, a).value); }
    forall o | o in Next(srv, s, a).sent ensures l.peers(o.u, o.relay.to.ip) { NextSent(srv, l, s, a, o); }
  }

  ghost predicate AllAdmissible(l: Limit, run: seq<Event>) {
    forall a :: a in run && a.Receive? ==> Admissible(l, a.m, a.cfg, a.u, a.now)
  }

  lemma {:induction false} RunLimited(srv: Server, l: Limit, s: State, run: seq<Event>)
    requires Legal(srv, s, run) && AllAdmissible(l, run) && Limited(l, s)
    ensures Limited(l, End(srv, s, run))
    decreases |run|
  {
    if run != [] {
      assert run[0] in run && forall a :: a in run[1..] ==> a in run;
      NextLimited(srv, l, s, run[0]);
      RunLimited(srv, l, Next(srv, s, run[0]), run[1..]);
    }
  }

  // -------------------------------------------------------------- the filter

  /** Every permission of `u`, every datagram sent for it, and every one it could send now, is to such a peer. */
  ghost predicate OnlyTo(peers: (FiveTuple, IP) -> bool, s: State, u: FiveTuple) {
    && (Find(s.table, u).Some? ==> forall p :: p in Find(s.table, u).value.permissions ==> peers(u, p.ip))
    && (forall o :: o in s.sent && o.u == u ==> peers(u, o.relay.to.ip))
    && (forall peer :: Send(s.table, u, peer).Sent? ==> peers(u, peer.ip))
    && (forall n :: SendBound(s.table, u, n).Sent? ==> peers(u, SendBound(s.table, u, n).to.ip))
  }

  lemma LimitedOnlyTo(l: Limit, s: State, u: FiveTuple)
    requires Limited(l, s)
    ensures OnlyTo(l.peers, s, u)
  {
    assert AllIn(ClaimOf(l), u, Find(s.table, u));
    if Find(s.table, u).Some? {
      forall p | p in Find(s.table, u).value.permissions ensures l.peers(u, p.ip) { assert ClaimOf(l)(u, p); }
    }
    forall peer | Send(s.table, u, peer).Sent? ensures l.peers(u, peer.ip) { SendsWithin(l, s.table, u, peer, 0); }
    forall n | SendBound(s.table, u, n).Sent? ensures l.peers(u, SendBound(s.table, u, n).to.ip) {
      SendsWithin(l, s.table, u, ZERO_ADDR, n);
    }
  }

  function AllowedBy(rule: Rule): (FiveTuple, IP) -> bool {
    (u: FiveTuple, ip: IP) => Allowed(rule, ip)
  }

  /**
   While the peer rule is not reloaded, every permitted IP, every address data was ever sent to,
   and every address that Send or SendBound would write to, is one the rule allows.
   */
  lemma FilterNeverBypassed(srv: Server, rule: Rule, run: seq<Event>, u: FiveTuple)
    requires Legal(srv, INITIAL, run) && forall a :: a in run && a.Receive? ==> a.cfg.peerRule == rule
    ensures OnlyTo(AllowedBy(rule), End(srv, INITIAL, run), u)
  {
    var l := Limit(AllowedBy(rule), None, None);
    RunLimited(srv, l, INITIAL, run);
    LimitedOnlyTo(l, End(srv, INITIAL, run), u);
  }

  /** A request of `u` for that very peer IP, allowed by the rule it came under. */
  predicate AskedFor(a: Event, u: FiveTuple, ip: IP) {
    && a.Receive? && a.u == u && a.m.cls == Request
    && (a.m.meth == MethodCreatePermission || a.m.meth == MethodChannelBind)
    && a.m.peer.Present? && a.m.peer.value.ip == ip && Allowed(a.cfg.peerRule, ip)
  }

  function AskedIn(run: seq<Event>): (FiveTuple, IP) -> bool {
    (u: FiveTuple, ip: IP) => exists a :: a in run && AskedFor(a, u, ip)
  }

  /**
   Reloads or not: every permission, and every datagram to a peer, goes back to a request of the
   same client for that peer IP, which the rule then in force allowed.
   */
  lemma PeersWereAskedFor(srv: Server, run: seq<Event>, u: FiveTuple)
    requires Legal(srv, INITIAL, run)
    ensures OnlyTo(AskedIn(run), End(srv, INITIAL, run), u)
  {
    var l := Limit(AskedIn(run), None, None);
    forall a | a in run && a.Receive? ensures Admissible(l, a.m, a.cfg, a.u, a.now) {
      var plan := PlanOf(a.cfg, a.m, a.u, a.now);
      if plan.Do? && (plan.op.OpCreatePermission? || plan.op.OpChannelBind?) {
        assert AskedFor(a, a.u, plan.op.peer.ip);
      }
    }
    RunLimited(srv, l, INITIAL, run);
    LimitedOnlyTo(l, End(srv, INITIAL, run), u);
  }

  // --------------------------------------------------------------- lifetimes

  function AnyPeer(): (FiveTuple, IP) -> bool {
    (u: FiveTuple, ip: IP) => true
  }

  /** What requests up to `latest` may ask for under the lifetimes newConfig sets. */
  function LifetimeLimit(latest: Time): Limit {
    Limit(AnyPeer(), Some(latest + HOUR), Some(latest + MINUTE))
  }

  /** All requests of the run came by `latest`. */
  ghost predicate ReceivedBy(run: seq<Event>, latest: Time) {
    forall a :: a in run && a.Receive? ==> Standard(a.cfg) && a.now <= latest
  }

  lemma RunLifetimes(srv: Server, run: seq<Event>, latest: Time)
    requires Legal(srv, INITIAL, run) && ReceivedBy(run, latest)
    ensures Limited(LifetimeLimit(latest), End(srv, INITIAL, run))
  {
    var l := LifetimeLimit(latest);
    forall a | a in run && a.Receive? ensures Admissible(l, a.m, a.cfg, a.u, a.now) {
      assert Standard(a.cfg) && a.now <= latest;
    }
    RunLimited(srv, l, INITIAL, run);
  }

  /**
   Whatever is reloaded, no permission outlives the latest request by more than an hour, no
   binding by more than a minute.
   */
  lemma LifetimesBounded(srv: Server, run: seq<Event>, latest: Time, u: FiveTuple, p: Permission)
    requires Legal(srv, INITIAL, run) && ReceivedBy(run, latest)
    requires var t := End(srv, INITIAL, run).table; Find(t, u).Some? && p in Find(t, u).value.permissions
    ensures p.timeout <= latest + 3600 && forall b :: b in p.bindings ==> b.timeout <= latest + 60
  {
    RunLifetimes(srv, run, latest);
    assert AllIn(ClaimOf(LifetimeLimit(latest)), u, Find(End(srv, INITIAL, run).table, u));
    assert Respects(LifetimeLimit(latest), u, p);
  }

  /** A collection an hour after the last request leaves nobody able to send anything. */
  lemma QuietHourSilences(srv: Server, run: seq<Event>, latest: Time, now: Time, u: FiveTuple, peer: Addr, n: int)
    requires Legal(srv, INITIAL, run) && ReceivedBy(run, latest) && now >= latest + 3600
    ensures var t := Next(srv, End(srv, INITIAL, run), Collect(now)).table;
      Send(t, u, peer) == PermissionNotFound && SendBound(t, u, n) == PermissionNotFound
  {
    RunLifetimes(srv, run, latest);
    var t, l := End(srv, INITIAL, run).table, LifetimeLimit(latest);
    FindPrune(t, now, u);
    assert AllIn(ClaimOf(l), u, Find(t, u));
    if Find(t, u).Some? {
      AllPermissionsGone(l, u, Find(t, u).value.permissions, now);
    }
  }

  lemma AllPermissionsGone(l: Limit, u: FiveTuple, ps: seq<Permission>, now: Time)
    requires forall p :: p in ps ==> Respects(l, u, p)
    requires l.permission.Some? && l.permission.value <= now
    ensures PrunePermissions(ps, now) == []
  {
    forall q | q in Map(Trim(now), ps) ensures !LivePermission(now)(q) {
      var i :| 0 <= i < |ps| && Map(Trim(now), ps)[i] == q;
      assert Respects(l, u, ps[i]);
    }
    FilterNone(LivePermission(now), Map(Trim(now), ps));
  }
}
