/**
 Whole runs of the server. Requests are served by many workers at once: the nonce check,
 the step on the table and the commit of a new allocation are separate steps, and any
 others may come between them.
 */
module ServerRuns {
  import opened Turn
  import opened Options
  import opened Table
  import opened Nonces
  import opened Requests
  import opened RequestLaws

  datatype Stage =
    | Arrived
    | Admitted(nonce: string, key: string)
    | Opening(nonce: string, key: string, timeout: Time)   // reserved, port not yet open
    | Closed(response: Option<Response>, relayed: Option<Relay>)

  /** One request being served, with the configuration it was received under. */
  datatype Job = Job(m: Message, cfg: Config, u: FiveTuple, now: Time, stage: Stage)

  /** Data written to a peer for a client. */
  datatype Outgoing = Outgoing(u: FiveTuple, relay: Relay)

  /** `checks` is the history of nonce checks, `sent` that of data written to peers. */
  datatype State = State(
    table: AllocTable,
    nonces: seq<Nonce>,
    checks: seq<Attempt>,
    jobs: seq<Job>,
    sent: seq<Outgoing>)

  datatype Event =
    | Receive(m: Message, cfg: Config, u: FiveTuple, now: Time)
    | Gatekeep(i: nat, draw: string)
    | Handle(i: nat)
    | Open(i: nat, port: Option<(Addr, Conn)>)
    | ChannelData(u: FiveTuple, n: int, data: seq<int>)
    | Collect(now: Time)

  predicate Enabled(s: State, a: Event) {
    match a
    case Gatekeep(i, _) => i < |s.jobs| && s.jobs[i].stage == Arrived
    case Handle(i) => i < |s.jobs| && s.jobs[i].stage.Admitted?
    case Open(i, _) => i < |s.jobs| && s.jobs[i].stage.Opening?
    case _ => true
  }

  function SetStage(s: State, i: nat, stage: Stage): State
    requires i < |s.jobs|
  {
    s.(jobs := s.jobs[i := s.jobs[i].(stage := stage)])
  }

  function SentFor(u: FiveTuple, relay: Option<Relay>): seq<Outgoing> {
    if relay.Some? then [Outgoing(u, relay.value)] else []
  }

  /** Where a request stands after its handler's step on the table, which answered `r`. */
  function StageAfter(j: Job, op: Op, r: Result): Stage
    requires j.stage.Admitted?
  {
    match FollowUp(j.cfg, j.m, op, r)
    case OpenPort => Opening(j.stage.nonce, j.stage.key, j.now + j.cfg.defaultLifetime)
    case Finish(None) => Closed(None, RelayOf(r, DataOf(j.m)))
    case Finish(Some(content)) => Closed(Build(j.cfg, j.m, j.stage.nonce, j.stage.key, content), None)
  }

  /** The handler of request `i` follows its plan. */
  function CarryOut(s: State, i: nat, plan: Plan): State
    requires i < |s.jobs| && s.jobs[i].stage.Admitted?
  {
    var j := s.jobs[i];
    match plan
    case Do(op) =>
      var (t, r) := Step(s.table, op);
      var stage := StageAfter(j, op, r);
      SetStage(s, i, stage).(table := t, sent := s.sent + if stage.Closed? then SentFor(j.u, stage.relayed) else [])
    case Reply(content) => SetStage(s, i, Closed(Build(j.cfg, j.m, j.stage.nonce, j.stage.key, content), None))
    case Silent => SetStage(s, i, Closed(None, None))
  }

  function Next(srv: Server, s: State, a: Event): State
    requires Enabled(s, a)
  {
    match a
    case Receive(m, cfg, u, now) => s.(jobs := s.jobs + [Job(m, cfg, u, now, Arrived)])
    case Gatekeep(i, draw) =>
      var j := s.jobs[i];
      var (ns, gate) := RunGate(srv, j.cfg, j.m, s.nonces, j.u, j.now, draw);
      var checks := if ReachesCheck(srv, j.cfg, j.m) then s.checks + [Attempt(j.u, NonceOf(j.m), j.now, draw)] else s.checks;
      var stage := match gate
        case Passed(nonce, key) => Admitted(nonce, key)
        case Rejected(nonce, code) => Closed(Build(j.cfg, j.m, nonce, "", Error(code)), None);
      SetStage(s, i, stage).(nonces := ns, checks := checks)
    case Handle(i) => CarryOut(s, i, PlanOf(s.jobs[i].cfg, s.jobs[i].m, s.jobs[i].u, s.jobs[i].now))
    case Open(i, port) =>
      var j := s.jobs[i];
      SetStage(s, i, Closed(Build(j.cfg, j.m, j.stage.nonce, j.stage.key, AfterPort(j.cfg, j.u, port)), None)).(table :=
        if port.Some? then Commit(s.table, j.u, j.stage.timeout, port.value.0, port.value.1) else s.table)
    case ChannelData(u, n, data) => s.(sent := s.sent + SentFor(u, RelayOf(SendBound(s.table, u, n), data)))
    case Collect(now) => s.(table := Prune(s.table, now))
  }

  /** The step on the table an action takes, if any. */
  function TableStep(s: State, a: Event): Option<Op>
    requires Enabled(s, a)
  {
    match a
    case Handle(i) =>
      var plan := PlanOf(s.jobs[i].cfg, s.jobs[i].m, s.jobs[i].u, s.jobs[i].now);
      if plan.Do? then Some(plan.op) else None
    case Open(i, port) =>
      if port.Some? then Some(OpCommit(s.jobs[i].u, s.jobs[i].stage.timeout, port.value.0, port.value.1)) else None
    case ChannelData(u, n, _) => Some(OpSendBound(u, n))
    case Collect(now) => Some(OpPrune(now))
    case _ => None
  }

  /** The table changes only by those steps. */
  lemma NextTable(srv: Server, s: State, a: Event)
    requires Enabled(s, a)
    ensures Next(srv, s, a).table == match TableStep(s, a) case Some(op) => Step(s.table, op).0 case None => s.table
  {
  }

  predicate Legal(srv: Server, s: State, run: seq<Event>)
    decreases |run|
  {
    run == [] || (Enabled(s, run[0]) && Legal(srv, Next(srv, s, run[0]), run[1..]))
  }

  function End(srv: Server, s: State, run: seq<Event>): State
    requires Legal(srv, s, run)
    decreases |run|
  {
    if run == [] then s else End(srv, Next(srv, s, run[0]), run[1..])
  }

  const INITIAL := State([], [], [], [], [])

  /** The handler of an admitted request, and the commit it may need. */
  function HandleThrough(srv: Server, s: State, i: nat, port: Option<(Addr, Conn)>): State
    requires Enabled(s, Handle(i))
  {
    var s' := Next(srv, s, Handle(i));
    if s'.jobs[i].stage.Opening? then Next(srv, s', Open(i, port)) else s'
  }

  /** One request from arrival to response, with nothing in between. */
  function Undisturbed(srv: Server, s: State, m: Message, cfg: Config, u: FiveTuple, ch: Chance): State {
    var i := |s.jobs|;
    var s1 := Next(srv, s, Receive(m, cfg, u, ch.now));
    var s2 := Next(srv, s1, Gatekeep(i, ch.draw));
    if s2.jobs[i].stage.Admitted? then HandleThrough(srv, s2, i, ch.port) else s2
  }

  /** The state and the job's end are those of an outcome. */
  ghost predicate Yields(s: State, s': State, u: FiveTuple, stage: Stage, o: Outcome) {
    && World(s'.nonces, s'.table) == o.world
    && stage == Closed(o.response, o.relayed)
    && s'.sent == s.sent + SentFor(u, o.relayed)
  }

  /** Carrying out a plan, with the commit it may need, is what HandlePlan says. */
  lemma CarriedIsPlan(srv: Server, s: State, i: nat, ch: Chance, plan: Plan)
    requires i < |s.jobs| && s.jobs[i].stage.Admitted? && s.jobs[i].now == ch.now
    ensures var j, s1 := s.jobs[i], CarryOut(s, i, plan);
      var s' := if s1.jobs[i].stage.Opening? then Next(srv, s1, Open(i, ch.port)) else s1;
      && |s'.jobs| == |s.jobs| && s'.jobs == s.jobs[i := j.(stage := s'.jobs[i].stage)]
      && Yields(s, s', j.u, s'.jobs[i].stage,
           HandlePlan(j.cfg, j.m, j.u, World(s.nonces, s.table), ch, j.stage.nonce, j.stage.key, plan))
  {
    assert s.sent + [] == s.sent;
  }

  /** A request whose steps nothing comes between does and answers what Process says. */
  lemma UndisturbedIsProcess(srv: Server, s: State, m: Message, cfg: Config, u: FiveTuple, ch: Chance)
    ensures var s' := Undisturbed(srv, s, m, cfg, u, ch);
      var o := Process(srv, cfg, m, u, World(s.nonces, s.table), ch);
      && World(s'.nonces, s'.table) == o.world
      && s'.jobs == s.jobs + [Job(m, cfg, u, ch.now, Closed(o.response, o.relayed))]
      && s'.sent == s.sent + SentFor(u, o.relayed)
  {
    var i := |s.jobs|;
    var s1 := Next(srv, s, Receive(m, cfg, u, ch.now));
    assert s1.jobs[i] == Job(m, cfg, u, ch.now, Arrived);
    var s2 := Next(srv, s1, Gatekeep(i, ch.draw));
    assert s2.sent + [] == s2.sent;
    if s2.jobs[i].stage.Admitted? {
      CarriedIsPlan(srv, s2, i, ch, PlanOf(cfg, m, u, ch.now));
    }
  }

  // --------------------------------------------------------------- answers

  ghost predicate AllAnswer(s: State) {
    forall i :: 0 <= i < |s.jobs| && s.jobs[i].stage.Closed? ==> Answers(s.jobs[i].m, s.jobs[i].stage.response)
  }

  /** What is finished in `s` is the same in `s'`. */
  ghost predicate FinishedStay(s: State, s': State) {
    |s.jobs| <= |s'.jobs| && forall i :: 0 <= i < |s.jobs| && s.jobs[i].stage.Closed? ==> s'.jobs[i] == s.jobs[i]
  }

  lemma NextAnswers(srv: Server, s: State, a: Event)
    requires AllAnswer(s) && Enabled(s, a)
    ensures AllAnswer(Next(srv, s, a)) && FinishedStay(s, Next(srv, s, a))
  {
  }

  /**
   However requests interleave, each is finished at most once, with at most one response, to its
   own transaction and method; an indication has none.
   */
  lemma {:induction false} RunAnswers(srv: Server, s: State, run: seq<Event>)
    requires AllAnswer(s) && Legal(srv, s, run)
    ensures AllAnswer(End(srv, s, run)) && FinishedStay(s, End(srv, s, run))
    decreases |run|
  {
    if run != [] {
      NextAnswers(srv, s, run[0]);
      RunAnswers(srv, Next(srv, s, run[0]), run[1..]);
    }
  }

  // -------------------------------------------------------- authentication

  /**
   The request's own nonce check is entry `k` of the history; it presented the nonce last
   issued to its 5-tuple before that, still live at its time; and the authenticator accepted it.
   */
  ghost predicate Authorized(srv: Server, checks: seq<Attempt>, j: Job, k: nat) {
    && k < |checks| && checks[k].tuple == j.u && checks[k].value == NonceOf(j.m) && checks[k].at == j.now
    && srv.auth.Some? && j.m.hasIntegrity && srv.auth.value(j.m).Some?
    && var issue := Issued(srv.nonceDuration, checks[..k], j.u);
       issue.Some? && issue.value.value == NonceOf(j.m) && Live(srv.nonceDuration, issue.value.at, j.now)
  }

  /** A job is past the gate and not yet finished. */
  predicate Inside(j: Job) { j.stage.Admitted? || j.stage.Opening? }

  /** Every request past the gate that needed authentication was authorized. */
  ghost predicate Vetted(srv: Server, s: State, j: Job) {
    Inside(j) ==>
      NeedAuth(srv, j.cfg, j.m) ==> exists k :: Authorized(srv, s.checks, j, k)
  }

  ghost predicate Secure(srv: Server, s: State) {
    && s.nonces == Nonces.After(srv.nonceDuration, s.checks)
    && (forall i :: 0 <= i < |s.jobs| ==> Vetted(srv, s, s.jobs[i]))
    && (forall i :: 0 <= i < |s.jobs| && s.jobs[i].stage.Opening? ==>
          s.jobs[i].m.meth == MethodAllocate && s.jobs[i].m.cls == Request)
  }

  lemma StaysAuthorized(srv: Server, checks: seq<Attempt>, more: seq<Attempt>, j: Job, k: nat)
    requires Authorized(srv, checks, j, k)
    ensures Authorized(srv, checks + more, j, k)
  {
    assert (checks + more)[..k] == checks[..k];
  }

  lemma StaysVetted(srv: Server, s: State, s': State, j: Job, j': Job, more: seq<Attempt>)
    requires Vetted(srv, s, j) && s'.checks == s.checks + more
    requires j' == j.(stage := j'.stage)
    requires Inside(j') ==> Inside(j)
    ensures Vetted(srv, s', j')
  {
    if Inside(j') && NeedAuth(srv, j.cfg, j.m) {
      var k :| Authorized(srv, s.checks, j, k);
      StaysAuthorized(srv, s.checks, more, j, k);
      assert Authorized(srv, s'.checks, j', k);
    }
  }

  /** What passes the gate with authentication on is authorized by its own check. */
  lemma GateAuthorizes(srv: Server, s: State, i: nat, draw: string)
    requires s.nonces == Nonces.After(srv.nonceDuration, s.checks) && Enabled(s, Gatekeep(i, draw))
    ensures var j := s.jobs[i];
      RunGate(srv, j.cfg, j.m, s.nonces, j.u, j.now, draw).1.Passed? && NeedAuth(srv, j.cfg, j.m)
      ==> Authorized(srv, Next(srv, s, Gatekeep(i, draw)).checks, j, |s.checks|)
  {
    var j := s.jobs[i];
    AcceptsIff(srv.nonceDuration, s.checks, Attempt(j.u, NonceOf(j.m), j.now, draw));
    LastReturnedIsIssued(srv.nonceDuration, s.checks, j.u);
    assert (s.checks + [Attempt(j.u, NonceOf(j.m), j.now, draw)])[..|s.checks|] == s.checks;
  }

  lemma GatekeepSecure(srv: Server, s: State, i: nat, draw: string)
    requires Secure(srv, s) && Enabled(s, Gatekeep(i, draw))
    ensures Secure(srv, Next(srv, s, Gatekeep(i, draw)))
  {
    var s', j := Next(srv, s, Gatekeep(i, draw)), s.jobs[i];
    var more := if ReachesCheck(srv, j.cfg, j.m) then [Attempt(j.u, NonceOf(j.m), j.now, draw)] else [];
    assert s'.checks == s.checks + more;
    assert (s.checks + more)[..|s.checks|] == s.checks;
    GateAuthorizes(srv, s, i, draw);
    forall k | 0 <= k < |s'.jobs| ensures Vetted(srv, s', s'.jobs[k]) {
      if k != i {
        StaysVetted(srv, s, s', s.jobs[k], s'.jobs[k], more);
      } else if s'.jobs[i].stage.Admitted? && NeedAuth(srv, j.cfg, j.m) {
        assert Authorized(srv, s'.checks, s'.jobs[i], |s.checks|);
      }
    }
  }

  /** Only the gate lets a request in, and only an Allocate request opens a port. */
  lemma OthersAdmitNone(srv: Server, s: State, a: Event, k: nat)
    requires Enabled(s, a) && !a.Gatekeep? && k < |s.jobs|
    ensures var s' := Next(srv, s, a);
      && k < |s'.jobs| && s'.jobs[k] == s.jobs[k].(stage := s'.jobs[k].stage) && (Inside(s'.jobs[k]) ==> Inside(s.jobs[k]))
      && (s'.jobs[k].stage.Opening? && !s.jobs[k].stage.Opening? ==>
            s.jobs[k].m.meth == MethodAllocate && s.jobs[k].m.cls == Request)
  {
  }

  lemma NextSecure(srv: Server, s: State, a: Event)
    requires Secure(srv, s) && Enabled(s, a)
    ensures Secure(srv, Next(srv, s, a))
  {
    if a.Gatekeep? {
      GatekeepSecure(srv, s, a.i, a.draw);
    } else {
      var s' := Next(srv, s, a);
      assert s'.checks == s.checks + [] && s'.nonces == s.nonces;
      assert forall k :: |s.jobs| <= k < |s'.jobs| ==> s'.jobs[k].stage == Arrived;
      forall k | 0 <= k < |s.jobs|
        ensures k < |s'.jobs| && Vetted(srv, s', s'.jobs[k])
        ensures s'.jobs[k].stage.Opening? ==> s'.jobs[k].m.meth == MethodAllocate && s'.jobs[k].m.cls == Request
      {
        OthersAdmitNone(srv, s, a, k);
        StaysVetted(srv, s, s', s.jobs[k], s'.jobs[k], []);
      }
    }
  }

  lemma {:induction false} RunSecure(srv: Server, s: State, run: seq<Event>)
    requires Secure(srv, s) && Legal(srv, s, run)
    ensures Secure(srv, End(srv, s, run))
    decreases |run|
  {
    if run != [] {
      NextSecure(srv, s, run[0]);
      RunSecure(srv, Next(srv, s, run[0]), run[1..]);
    }
  }

  /** What changes the table is a collection, or a request past the gate that needed authentication. */
  lemma ChangeNeedsAuth(srv: Server, s: State, a: Event)
    requires srv.auth.Some? && Secure(srv, s) && Enabled(s, a) && Next(srv, s, a).table != s.table
    ensures a.Collect? || ((a.Handle? || a.Open?) && Inside(s.jobs[a.i]) && NeedAuth(srv, s.jobs[a.i].cfg, s.jobs[a.i].m))
  {
    NextTable(srv, s, a);
  }

  /**
   With an authenticator configured, in every run a change to the table is a prune, or the
   work of a request that presented the live nonce last issued to its own 5-tuple and
   whose integrity the authenticator accepted.
   */
  lemma AuthenticatedChanges(srv: Server, run: seq<Event>, a: Event)
    requires srv.auth.Some? && Legal(srv, INITIAL, run)
    requires var s := End(srv, INITIAL, run); Enabled(s, a) && Next(srv, s, a).table != s.table
    ensures var s := End(srv, INITIAL, run);
      a.Collect? || ((a.Handle? || a.Open?) && exists k :: Authorized(srv, s.checks, s.jobs[a.i], k))
  {
    var s := End(srv, INITIAL, run);
    assert Secure(srv, INITIAL);
    RunSecure(srv, INITIAL, run);
    ChangeNeedsAuth(srv, s, a);
    if !a.Collect? { assert Vetted(srv, s, s.jobs[a.i]); }
  }

  /**
   In every run the gate lets a request in exactly as Grants says, by the checks that came before
   its own, refuses it exactly as Refuses says, and hands out the nonce due.
   */
  lemma GatekeepDecides(srv: Server, run: seq<Event>, i: nat, draw: string)
    requires Legal(srv, INITIAL, run) && Enabled(End(srv, INITIAL, run), Gatekeep(i, draw))
    ensures var s := End(srv, INITIAL, run);
      var j, s' := s.jobs[i], Next(srv, s, Gatekeep(i, draw));
      var stage, nonce := s'.jobs[i].stage, NonceDue(srv, j.cfg, j.m, j.u, s.checks, j.now, draw);
      && (forall key :: stage == Admitted(nonce, key) <==> Grants(srv, j.cfg, j.m, j.u, s.checks, j.now, key))
      && (!stage.Admitted? <==> exists code :: Refuses(srv, j.cfg, j.m, j.u, s.checks, j.now, code))
      && (forall code :: Refuses(srv, j.cfg, j.m, j.u, s.checks, j.now, code) ==> Denied(stage, j, nonce, code))
      && s'.checks == Then(srv, j.cfg, j.m, j.u, s.checks, j.now, draw) && s'.table == s.table && s'.sent == s.sent
  {
    var s := End(srv, INITIAL, run);
    var j := s.jobs[i];
    assert Secure(srv, INITIAL);
    RunSecure(srv, INITIAL, run);
    GateDecides(srv, j.cfg, j.m, j.u, s.checks, j.now, draw);
    var gate := RunGate(srv, j.cfg, j.m, s.nonces, j.u, j.now, draw).1;
    if gate.Rejected? {
      BuiltReads(j.cfg, j.m, gate.nonce, "", Error(gate.code));
      assert Refuses(srv, j.cfg, j.m, j.u, s.checks, j.now, gate.code);
    } else {
      assert Grants(srv, j.cfg, j.m, j.u, s.checks, j.now, gate.key);
    }
  }

  /** The request is over: told the code and the nonce, unless it is an indication. */
  ghost predicate Denied(stage: Stage, j: Job, nonce: string, code: nat) {
    && stage.Closed? && stage.relayed == None && (stage.response == None <==> j.m.cls == Indication)
    && (stage.response.Some? ==>
          && Carries(stage.response.value, nonce, j.cfg, "")
          && stage.response.value.cls == ErrorResponse && Tells(stage.response.value, [AttrError(code)]))
  }

  /** ChannelData goes to the peer the table binds the channel to, from the client's socket; a collection prunes the table. */
  lemma OthersStep(srv: Server, s: State, u: FiveTuple, n: int, data: seq<int>, now: Time)
    ensures var r := SendBound(s.table, u, n);
      Next(srv, s, ChannelData(u, n, data))
        == s.(sent := s.sent + if r.Sent? then [Outgoing(u, Relay(r.conn, r.to, data))] else [])
    ensures Next(srv, s, Collect(now)) == s.(table := Step(s.table, OpPrune(now)).0)
  {
  }

  /** The random nonces of newNonce are 24 characters long; so an authorized request did carry its nonce. */
  lemma AuthorizedCarriesNonce(srv: Server, checks: seq<Attempt>, j: Job, k: nat)
    requires Authorized(srv, checks, j, k)
    requires forall e :: e in checks ==> |e.draw| == 24
    ensures j.m.nonce.Present?
  {
    IssuedIsDrawn(srv.nonceDuration, checks[..k], j.u);
    assert forall e :: e in checks[..k] ==> e in checks;
  }
}
