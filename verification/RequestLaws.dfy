/**
 What a request gets, said from outside: when the gate lets it in, what each kind of request
 does to the table and is told, and what every response carries. Nothing here speaks of plans;
 codes and attributes are those a client sees.
 */
module RequestLaws {
  import opened Turn
  import opened Options
  import opened Keyed
  import opened Table
  import opened TableLaws
  import opened Nonces
  import opened Filtering
  import opened Requests

  // ----------------------------------------------------------------- responses

  /** The order of attributes in a response: NONCE, REALM, SOFTWARE, the handler's own, MESSAGE-INTEGRITY, FINGERPRINT. */
  function Rank(a: Attribute): nat {
    match a
    case AttrNonce(_) => 0
    case AttrRealm(_) => 1
    case AttrSoftware(_) => 2
    case AttrIntegrity(_) => 4
    case AttrFingerprint => 5
    case _ => 3
  }

  /** Attributes come in order of rank, and but for the handler's own at most one of each. */
  ghost predicate InOrder(r: Response) {
    forall i, j :: 0 <= i < j < |r.attributes| ==>
      Rank(r.attributes[i]) < Rank(r.attributes[j]) || Rank(r.attributes[i]) == 3 == Rank(r.attributes[j])
  }

  /** One NONCE, REALM and FINGERPRINT; SOFTWARE and MESSAGE-INTEGRITY exactly if they are not empty. */
  ghost predicate Carries(r: Response, nonce: string, cfg: Config, key: string) {
    && InOrder(r)
    && (forall x :: AttrNonce(x) in r.attributes <==> x == nonce)
    && (forall x :: AttrRealm(x) in r.attributes <==> x == cfg.realm)
    && (forall x :: AttrSoftware(x) in r.attributes <==> x == cfg.software && x != "")
    && (forall x :: AttrIntegrity(x) in r.attributes <==> x == key && x != "")
    && AttrFingerprint in r.attributes
  }

  /** The handler's own attributes in the response are `body`. */
  ghost predicate Tells(r: Response, body: seq<Attribute>) {
    exists i, j :: 0 <= i <= j <= |r.attributes| && TellsAt(r, body, i, j)
  }

  ghost predicate TellsAt(r: Response, body: seq<Attribute>, i: int, j: int)
    requires 0 <= i <= j <= |r.attributes|
  {
    && r.attributes[i..j] == body
    && (forall k :: 0 <= k < |r.attributes| ==> (i <= k < j <==> Rank(r.attributes[k]) == 3))
  }

  /** The handler's attributes are of its own kind. */
  ghost predicate Plain(body: seq<Attribute>) {
    forall i :: 0 <= i < |body| ==> Rank(body[i]) == 3
  }

  /** What stands at each place of a response; the handler's attributes are at `i` to `j`. */
  ghost predicate Places(a: seq<Attribute>, nonce: string, cfg: Config, key: string, body: seq<Attribute>, i: int, j: int) {
    && i == (if cfg.software != "" then 3 else 2) && j == i + |body| && |a| == j + (if key != "" then 2 else 1)
    && a[0] == AttrNonce(nonce) && a[1] == AttrRealm(cfg.realm) && (cfg.software != "" ==> a[2] == AttrSoftware(cfg.software))
    && a[i..j] == body && (forall k :: i <= k < j ==> Rank(a[k]) == 3)
    && (key != "" ==> a[j] == AttrIntegrity(key)) && a[|a| - 1] == AttrFingerprint
  }

  lemma BuiltPlaces(cfg: Config, m: Message, nonce: string, key: string, content: Content)
    requires Plain(content.attributes)
    ensures var i := if cfg.software != "" then 3 else 2;
      Places(ResponseTo(m, cfg.realm, cfg.software, nonce, key, content).attributes,
             nonce, cfg, key, content.attributes, i, i + |content.attributes|)
  {
    var a, body := ResponseTo(m, cfg.realm, cfg.software, nonce, key, content).attributes, content.attributes;
    var i := if cfg.software != "" then 3 else 2;
    forall k | i <= k < i + |body| ensures Rank(a[k]) == 3 { assert a[k] == body[k - i]; }
  }

  /** The place of an attribute gives its rank. */
  lemma RankAt(a: seq<Attribute>, nonce: string, cfg: Config, key: string, body: seq<Attribute>, i: int, j: int, k: nat)
    requires Places(a, nonce, cfg, key, body, i, j) && k < |a|
    ensures Rank(a[k]) == if k < 2 then k else if k < i then 2 else if k < j then 3 else if k < |a| - 1 then 4 else 5
  {
  }

  /** So an attribute of the server's own kind is found in its place only. */
  lemma FoundAt(a: seq<Attribute>, nonce: string, cfg: Config, key: string, body: seq<Attribute>, i: int, j: int, x: Attribute)
    requires Places(a, nonce, cfg, key, body, i, j) && x in a && Rank(x) != 3
    ensures Rank(x) == 0 ==> x == AttrNonce(nonce)
    ensures Rank(x) == 1 ==> x == AttrRealm(cfg.realm)
    ensures Rank(x) == 2 ==> cfg.software != "" && x == AttrSoftware(cfg.software)
    ensures Rank(x) == 4 ==> key != "" && x == AttrIntegrity(key)
  {
    var k :| 0 <= k < |a| && a[k] == x;
    RankAt(a, nonce, cfg, key, body, i, j, k);
  }

  lemma PlacesInOrder(r: Response, nonce: string, cfg: Config, key: string, body: seq<Attribute>, i: int, j: int)
    requires Places(r.attributes, nonce, cfg, key, body, i, j)
    ensures InOrder(r) && Tells(r, body)
  {
    forall k: nat | k < |r.attributes|
      ensures Rank(r.attributes[k]) == if k < 2 then k else if k < i then 2 else if k < j then 3 else if k < |r.attributes| - 1 then 4 else 5
    {
      RankAt(r.attributes, nonce, cfg, key, body, i, j, k);
    }
    assert TellsAt(r, body, i, j);
  }

  /** What is built can be read back. */
  lemma BuiltReads(cfg: Config, m: Message, nonce: string, key: string, content: Content)
    requires Plain(content.attributes)
    ensures var r := ResponseTo(m, cfg.realm, cfg.software, nonce, key, content);
      Carries(r, nonce, cfg, key) && Tells(r, content.attributes)
  {
    BuiltPlaces(cfg, m, nonce, key, content);
    var i := if cfg.software != "" then 3 else 2;
    PlacesCarry(ResponseTo(m, cfg.realm, cfg.software, nonce, key, content), nonce, cfg, key, content.attributes, i, i + |content.attributes|);
  }

  lemma PlacesCarry(r: Response, nonce: string, cfg: Config, key: string, body: seq<Attribute>, i: int, j: int)
    requires Places(r.attributes, nonce, cfg, key, body, i, j)
    ensures Carries(r, nonce, cfg, key) && Tells(r, body)
  {
    PlacesInOrder(r, nonce, cfg, key, body, i, j);
    forall x | x in r.attributes && Rank(x) != 3
      ensures Rank(x) == 0 ==> x == AttrNonce(nonce)
      ensures Rank(x) == 1 ==> x == AttrRealm(cfg.realm)
      ensures Rank(x) == 2 ==> cfg.software != "" && x == AttrSoftware(cfg.software)
      ensures Rank(x) == 4 ==> key != "" && x == AttrIntegrity(key)
    {
      FoundAt(r.attributes, nonce, cfg, key, body, i, j, x);
    }
    forall x ensures AttrNonce(x) in r.attributes <==> x == nonce {}
    forall x ensures AttrRealm(x) in r.attributes <==> x == cfg.realm {}
  }

  // ---------------------------------------------------------------------- gate

  /** Served without authentication: no authenticator, an indication, or a Binding request where STUN is open. */
  predicate Exempt(srv: Server, cfg: Config, m: Message) {
    srv.auth == None || m.cls == Indication || (m.meth == MethodBinding && m.cls == Request && !cfg.authForSTUN)
  }

  /** The request makes the server check a nonce, and so answer with one. */
  predicate ChecksNonce(srv: Server, cfg: Config, m: Message) {
    m.fingerprint != BadFingerprint && !Exempt(srv, cfg, m) && m.nonce != Malformed
  }

  /** The nonce last issued to `u`, if it is still live. */
  function LiveNonce(duration: int, h: seq<Attempt>, u: FiveTuple, now: Time): Option<string> {
    var issue := Issued(duration, h, u);
    if issue.Some? && Live(duration, issue.value.at, now) then Some(issue.value.value) else None
  }

  /** The request presents the live nonce; one without the attribute presents the empty string. */
  predicate NonceFresh(duration: int, h: seq<Attempt>, u: FiveTuple, now: Time, m: Message) {
    LiveNonce(duration, h, u, now) == Some(if m.nonce.Present? then m.nonce.value else "")
  }

  /** The request, after the history `h` of checks, is to be served, its response protected with `key`. */
  predicate Grants(srv: Server, cfg: Config, m: Message, u: FiveTuple, h: seq<Attempt>, now: Time, key: string) {
    && m.fingerprint != BadFingerprint
    && if Exempt(srv, cfg, m) then key == ""
       else m.nonce != Malformed && m.hasIntegrity && NonceFresh(srv.nonceDuration, h, u, now, m) && srv.auth.value(m) == Some(key)
  }

  /** The request is refused with this code. */
  predicate Refuses(srv: Server, cfg: Config, m: Message, u: FiveTuple, h: seq<Attempt>, now: Time, code: nat) {
    var good := NonceFresh(srv.nonceDuration, h, u, now, m);
    match code
    case 400 => m.fingerprint == BadFingerprint || (!Exempt(srv, cfg, m) && m.nonce == Malformed)
    case 401 => ChecksNonce(srv, cfg, m) && (!m.hasIntegrity || (good && srv.auth.value(m) == None))
    case 438 => ChecksNonce(srv, cfg, m) && m.hasIntegrity && !good
    case _ => false
  }

  /** The nonce the response is to carry: the live one or a new one where a nonce was checked, else none. */
  function NonceDue(srv: Server, cfg: Config, m: Message, u: FiveTuple, h: seq<Attempt>, now: Time, draw: string): string {
    if !ChecksNonce(srv, cfg, m) then ""
    else match LiveNonce(srv.nonceDuration, h, u, now) case Some(v) => v case None => draw
  }

  /** The history after the request. */
  function Then(srv: Server, cfg: Config, m: Message, u: FiveTuple, h: seq<Attempt>, now: Time, draw: string): seq<Attempt> {
    if ChecksNonce(srv, cfg, m) then h + [Attempt(u, if m.nonce.Present? then m.nonce.value else "", now, draw)] else h
  }

  /** What the nonce check comes to, after any history. */
  lemma CheckDecides(srv: Server, cfg: Config, m: Message, u: FiveTuple, h: seq<Attempt>, now: Time, draw: string)
    requires ChecksNonce(srv, cfg, m)
    ensures ReachesCheck(srv, cfg, m)
    ensures var (ns, v) := CheckStep(After(srv.nonceDuration, h), srv.nonceDuration, u, NonceOf(m), now, draw);
      && (!v.stale <==> NonceFresh(srv.nonceDuration, h, u, now, m))
      && v.value == NonceDue(srv, cfg, m, u, h, now, draw)
      && ns == After(srv.nonceDuration, Then(srv, cfg, m, u, h, now, draw))
  {
    var e := Attempt(u, NonceOf(m), now, draw);
    AcceptsIff(srv.nonceDuration, h, e);
    LastReturnedIsIssued(srv.nonceDuration, h, u);
    assert (h + [e])[..|h|] == h;
  }

  /**
   After any history of nonce checks: whom the gate lets in, with which key, whom it refuses, with
   which code, and which nonce it hands out.
   */
  lemma GateDecides(srv: Server, cfg: Config, m: Message, u: FiveTuple, h: seq<Attempt>, now: Time, draw: string)
    ensures var (ns, gate) := RunGate(srv, cfg, m, After(srv.nonceDuration, h), u, now, draw);
      && (forall key :: gate.Passed? && gate.key == key <==> Grants(srv, cfg, m, u, h, now, key))
      && (forall code :: gate.Rejected? && gate.code == code <==> Refuses(srv, cfg, m, u, h, now, code))
      && gate.nonce == NonceDue(srv, cfg, m, u, h, now, draw)
      && ns == After(srv.nonceDuration, Then(srv, cfg, m, u, h, now, draw))
  {
    if ChecksNonce(srv, cfg, m) { CheckDecides(srv, cfg, m, u, h, now, draw); }
  }

  /** Whatever a handler replies is plain. */
  lemma HandlerReplies(cfg: Config, m: Message, u: FiveTuple, w: World, ch: Chance, nonce: string, key: string) returns (content: Content)
    ensures Plain(content.attributes)
    ensures var r := HandlePlan(cfg, m, u, w, ch, nonce, key, PlanOf(cfg, m, u, ch.now)).response;
      r.Some? ==> m.cls != Indication && r.value == ResponseTo(m, cfg.realm, cfg.software, nonce, key, content)
  {
    var plan := PlanOf(cfg, m, u, ch.now);
    content := Error(400);
    if plan.Reply? {
      content := plan.content;
    } else if plan.Do? {
      var follow := FollowUp(cfg, m, plan.op, Step(w.table, plan.op).1);
      if follow.OpenPort? {
        content := AfterPort(cfg, u, ch.port);
      } else if follow.content.Some? {
        content := follow.content.value;
      }
    }
  }

  lemma PassedCarries(srv: Server, cfg: Config, m: Message, u: FiveTuple, w: World, ch: Chance)
    requires RunGate(srv, cfg, m, w.nonces, u, ch.now, ch.draw).1.Passed?
    ensures var o, gate := Process(srv, cfg, m, u, w, ch), RunGate(srv, cfg, m, w.nonces, u, ch.now, ch.draw);
      o.world.nonces == gate.0 && (o.response.Some? ==> Carries(o.response.value, gate.1.nonce, cfg, gate.1.key))
  {
    var (ns, gate) := RunGate(srv, cfg, m, w.nonces, u, ch.now, ch.draw);
    var content := HandlerReplies(cfg, m, u, w.(nonces := ns), ch, gate.nonce, gate.key);
    BuiltReads(cfg, m, gate.nonce, gate.key, content);
  }

  /** A refusal changes no table, and is told the code unless it is an indication. */
  ghost predicate Refusal(o: Outcome, w: World, cfg: Config, m: Message, nonce: string, code: nat) {
    && o.world.table == w.table && o.relayed == None && (o.response == None <==> m.cls == Indication)
    && (o.response.Some? ==>
          && Carries(o.response.value, nonce, cfg, "")
          && o.response.value.cls == ErrorResponse && Tells(o.response.value, [AttrError(code)]))
  }

  lemma RejectedCarries(srv: Server, cfg: Config, m: Message, u: FiveTuple, w: World, ch: Chance)
    requires RunGate(srv, cfg, m, w.nonces, u, ch.now, ch.draw).1.Rejected?
    ensures var o, gate := Process(srv, cfg, m, u, w, ch), RunGate(srv, cfg, m, w.nonces, u, ch.now, ch.draw);
      o.world.nonces == gate.0 && Refusal(o, w, cfg, m, gate.1.nonce, gate.1.code)
  {
    var gate := RunGate(srv, cfg, m, w.nonces, u, ch.now, ch.draw).1;
    BuiltReads(cfg, m, gate.nonce, "", Error(gate.code));
  }

  /**
   What every response carries: the nonce due, the realm, SOFTWARE if set, and
   MESSAGE-INTEGRITY with the granted key; a refusal has its code and no integrity.
   */
  lemma ResponseCarries(srv: Server, cfg: Config, m: Message, u: FiveTuple, h: seq<Attempt>, w: World, ch: Chance)
    requires w.nonces == After(srv.nonceDuration, h)
    ensures var o, nonce := Process(srv, cfg, m, u, w, ch), NonceDue(srv, cfg, m, u, h, ch.now, ch.draw);
      && o.world.nonces == After(srv.nonceDuration, Then(srv, cfg, m, u, h, ch.now, ch.draw))
      && (forall key :: Grants(srv, cfg, m, u, h, ch.now, key) && o.response.Some? ==> Carries(o.response.value, nonce, cfg, key))
      && (forall code :: Refuses(srv, cfg, m, u, h, ch.now, code) ==> Refusal(o, w, cfg, m, nonce, code))
  {
    GateDecides(srv, cfg, m, u, h, ch.now, ch.draw);
    if RunGate(srv, cfg, m, w.nonces, u, ch.now, ch.draw).1.Passed? {
      PassedCarries(srv, cfg, m, u, w, ch);
    } else {
      RejectedCarries(srv, cfg, m, u, w, ch);
    }
  }

  /**
   The challenge works: a client that copies the nonce of the response to its last checked
   request, while that nonce is live, and has credentials the authenticator accepts, is let in.
   */
  lemma ChallengeAnswered(srv: Server, cfg: Config, m: Message, u: FiveTuple, h: seq<Attempt>, w: World, ch: Chance,
                          cfg2: Config, m2: Message, ch2: Chance, key: string)
    requires w.nonces == After(srv.nonceDuration, h) && ChecksNonce(srv, cfg, m)
    requires var r := Process(srv, cfg, m, u, w, ch).response;
      r.Some? && m2.nonce.Present? && AttrNonce(m2.nonce.value) in r.value.attributes
    requires LiveNonce(srv.nonceDuration, Then(srv, cfg, m, u, h, ch.now, ch.draw), u, ch2.now).Some?
    requires ChecksNonce(srv, cfg2, m2) && m2.hasIntegrity && srv.auth.value(m2) == Some(key)
    ensures var gate := RunGate(srv, cfg2, m2, Process(srv, cfg, m, u, w, ch).world.nonces, u, ch2.now, ch2.draw).1;
      gate.Passed? && gate.key == key
  {
    CopiedIsDue(srv, cfg, m, u, h, w, ch, m2.nonce.value);
    var h2 := Then(srv, cfg, m, u, h, ch.now, ch.draw);
    DueIsLive(srv, cfg, m, u, h, ch.now, ch.draw, ch2.now);
    assert Grants(srv, cfg2, m2, u, h2, ch2.now, key);
    GateDecides(srv, cfg2, m2, u, h2, ch2.now, ch2.draw);
  }

  /** The one nonce of a response is the one due; and the server remembers it. */
  lemma CopiedIsDue(srv: Server, cfg: Config, m: Message, u: FiveTuple, h: seq<Attempt>, w: World, ch: Chance, x: string)
    requires w.nonces == After(srv.nonceDuration, h)
    requires var r := Process(srv, cfg, m, u, w, ch).response; r.Some? && AttrNonce(x) in r.value.attributes
    ensures x == NonceDue(srv, cfg, m, u, h, ch.now, ch.draw)
    ensures Process(srv, cfg, m, u, w, ch).world.nonces == After(srv.nonceDuration, Then(srv, cfg, m, u, h, ch.now, ch.draw))
  {
    GateDecides(srv, cfg, m, u, h, ch.now, ch.draw);
    if RunGate(srv, cfg, m, w.nonces, u, ch.now, ch.draw).1.Passed? {
      PassedCarries(srv, cfg, m, u, w, ch);
    } else {
      RejectedCarries(srv, cfg, m, u, w, ch);
    }
  }

  lemma DueIsLive(srv: Server, cfg: Config, m: Message, u: FiveTuple, h: seq<Attempt>, now: Time, draw: string, later: Time)
    requires ChecksNonce(srv, cfg, m)
    requires LiveNonce(srv.nonceDuration, Then(srv, cfg, m, u, h, now, draw), u, later).Some?
    ensures LiveNonce(srv.nonceDuration, Then(srv, cfg, m, u, h, now, draw), u, later) == Some(NonceDue(srv, cfg, m, u, h, now, draw))
  {
    assert Then(srv, cfg, m, u, h, now, draw)[..|h|] == h;
  }

  // ------------------------------------------------------------------ requests

  /** The request is let in. */
  predicate LetIn(srv: Server, cfg: Config, m: Message, u: FiveTuple, w: World, ch: Chance) {
    RunGate(srv, cfg, m, w.nonces, u, ch.now, ch.draw).1.Passed?
  }

  /** The entry of `u` becomes `e`; every other entry is unchanged. */
  ghost predicate OnlyEntry(t: AllocTable, t': AllocTable, u: FiveTuple, e: Option<Allocation>) {
    Distinct(TupleOf, t') && Find(t', u) == e && forall v :: v != u ==> Find(t', v) == Find(t, v)
  }

  /** A response of this class, with these attributes of the handler's own, and nothing relayed. */
  ghost predicate Replies(o: Outcome, cls: Class, body: seq<Attribute>) {
    o.response.Some? && o.response.value.cls == cls && Tells(o.response.value, body) && o.relayed == None
  }

  ghost predicate Fails(o: Outcome, w: World, code: nat) {
    o.world.table == w.table && Replies(o, ErrorResponse, [AttrError(code)])
  }

  ghost predicate Ignored(o: Outcome, w: World) {
    o.world.table == w.table && o.response == None && o.relayed == None
  }

  /** A request that is answered at once. */
  lemma AnsweredAtOnce(srv: Server, cfg: Config, m: Message, u: FiveTuple, w: World, ch: Chance, content: Content)
    requires LetIn(srv, cfg, m, u, w, ch) && PlanOf(cfg, m, u, ch.now) == Reply(content)
    requires Plain(content.attributes) && m.cls != Indication
    ensures var o := Process(srv, cfg, m, u, w, ch); o.world.table == w.table && Replies(o, content.cls, content.attributes)
  {
    var gate := RunGate(srv, cfg, m, w.nonces, u, ch.now, ch.draw).1;
    BuiltReads(cfg, m, gate.nonce, gate.key, content);
  }

  /** A request that is answered after one step on the table. */
  lemma AnsweredAfter(srv: Server, cfg: Config, m: Message, u: FiveTuple, w: World, ch: Chance, op: Op, content: Content)
    requires LetIn(srv, cfg, m, u, w, ch) && PlanOf(cfg, m, u, ch.now) == Do(op)
    requires FollowUp(cfg, m, op, Step(w.table, op).1) == Finish(Some(content))
    requires Plain(content.attributes) && m.cls != Indication
    ensures var o := Process(srv, cfg, m, u, w, ch);
      o.world.table == Step(w.table, op).0 && Replies(o, content.cls, content.attributes)
  {
    var gate := RunGate(srv, cfg, m, w.nonces, u, ch.now, ch.draw).1;
    BuiltReads(cfg, m, gate.nonce, gate.key, content);
  }

  lemma EntriesAfter(t: AllocTable, op: Op, u: FiveTuple)
    requires Distinct(TupleOf, t) && !op.OpPrune? && !op.OpStats? && op.tuple == u
    ensures OnlyEntry(t, Step(t, op).0, u, EntryStep(Find(t, u), op, u))
  {
    forall v ensures Distinct(TupleOf, Step(t, op).0) && Find(Step(t, op).0, v) == EntryStep(Find(t, v), op, v) {
      StepEntries(t, op, v);
    }
    StepEntries(t, op, u);
  }

  /** Refresh: zero or no lifetime removes, any other sets the timeout; the reply repeats the lifetime. */
  lemma RefreshServed(srv: Server, cfg: Config, m: Message, u: FiveTuple, w: World, ch: Chance)
    requires m.meth == MethodRefresh && m.cls == Request && LetIn(srv, cfg, m, u, w, ch) && Distinct(TupleOf, w.table)
    ensures var o, e := Process(srv, cfg, m, u, w, ch), Find(w.table, u);
      match m.lifetime
      case Malformed => Ignored(o, w)
      case Present(l) =>
        if l > 0 then
          && OnlyEntry(w.table, o.world.table, u, if e.Some? then Some(e.value.(timeout := ch.now + l)) else None)
          && Replies(o, SuccessResponse, [AttrLifetime(l)])
        else Removes(o, w, u)
      case Missing => Removes(o, w, u)
  {
    if m.lifetime.Present? && m.lifetime.value > 0 {
      var l := m.lifetime.value;
      EntriesAfter(w.table, OpRefresh(u, ch.now + l), u);
      AnsweredAfter(srv, cfg, m, u, w, ch, OpRefresh(u, ch.now + l), Content(SuccessResponse, [AttrLifetime(l)]));
    } else if !m.lifetime.Malformed? {
      RemoveTried(srv, cfg, m, u, w, ch);
    }
  }

  lemma RemoveTried(srv: Server, cfg: Config, m: Message, u: FiveTuple, w: World, ch: Chance)
    requires m.cls != Indication && LetIn(srv, cfg, m, u, w, ch) && Distinct(TupleOf, w.table)
    requires PlanOf(cfg, m, u, ch.now) == Do(OpRemove(u))
    ensures Removes(Process(srv, cfg, m, u, w, ch), w, u)
  {
    EntriesAfter(w.table, OpRemove(u), u);
    RemoveAnswers(w.table, u);
    if Find(w.table, u).Some? {
      AnsweredAfter(srv, cfg, m, u, w, ch, OpRemove(u), Content(SuccessResponse, [AttrLifetime(0)]));
    } else {
      AnsweredAfter(srv, cfg, m, u, w, ch, OpRemove(u), Content(ErrorResponse, [AttrError(437)]));
    }
  }

  /** The entry is gone, with success exactly if there was one. */
  ghost predicate Removes(o: Outcome, w: World, u: FiveTuple) {
    && OnlyEntry(w.table, o.world.table, u, None)
    && if Find(w.table, u).Some? then Replies(o, SuccessResponse, [AttrLifetime(0)]) else Replies(o, ErrorResponse, [AttrError(437)])
  }

  lemma {:induction false} EntryTwice(t: AllocTable, t1: AllocTable, t2: AllocTable, u: FiveTuple, e1: Option<Allocation>, e2: Option<Allocation>)
    requires OnlyEntry(t, t1, u, e1) && OnlyEntry(t1, t2, u, e2)
    ensures OnlyEntry(t, t2, u, e2)
  {
  }

  lemma PortOutcome(srv: Server, cfg: Config, m: Message, u: FiveTuple, w: World, ch: Chance, until: Time)
    requires LetIn(srv, cfg, m, u, w, ch) && until == ch.now + cfg.defaultLifetime
    requires PlanOf(cfg, m, u, ch.now) == Do(OpReserve(u, until)) && Reserve(w.table, u, until).1 == Done
    ensures var o, t := Process(srv, cfg, m, u, w, ch), Reserve(w.table, u, until).0;
      var gate := RunGate(srv, cfg, m, w.nonces, u, ch.now, ch.draw).1;
      && o.world.table == (if ch.port.Some? then Commit(t, u, until, ch.port.value.0, ch.port.value.1) else t)
      && o.response == Build(cfg, m, gate.nonce, gate.key, AfterPort(cfg, u, ch.port)) && o.relayed == None
  {
    assert FollowUp(cfg, m, OpReserve(u, until), Step(w.table, OpReserve(u, until)).1) == OpenPort;
  }

  /** An Allocate that has reserved its 5-tuple and asked for a port. */
  lemma AnsweredAfterPort(srv: Server, cfg: Config, m: Message, u: FiveTuple, w: World, ch: Chance, until: Time, content: Content)
    requires LetIn(srv, cfg, m, u, w, ch) && m.cls == Request && until == ch.now + cfg.defaultLifetime
    requires PlanOf(cfg, m, u, ch.now) == Do(OpReserve(u, until)) && Reserve(w.table, u, until).1 == Done
    requires content == AfterPort(cfg, u, ch.port) && Plain(content.attributes)
    ensures var o, t := Process(srv, cfg, m, u, w, ch), Reserve(w.table, u, until).0;
      && Replies(o, content.cls, content.attributes)
      && o.world.table == (if ch.port.Some? then Commit(t, u, until, ch.port.value.0, ch.port.value.1) else t)
  {
    PortOutcome(srv, cfg, m, u, w, ch, until);
    var gate := RunGate(srv, cfg, m, w.nonces, u, ch.now, ch.draw).1;
    BuiltReads(cfg, m, gate.nonce, gate.key, content);
  }

  /**
   Allocate: a free UDP 5-tuple gets an entry with the opened socket for the default lifetime, and
   the reply names the client's and the relayed address; without a port the entry stays reserved.
   */
  lemma AllocateServed(srv: Server, cfg: Config, m: Message, u: FiveTuple, w: World, ch: Chance)
    requires m.meth == MethodAllocate && m.cls == Request && LetIn(srv, cfg, m, u, w, ch) && Distinct(TupleOf, w.table)
    ensures var o, until := Process(srv, cfg, m, u, w, ch), ch.now + cfg.defaultLifetime;
      if !m.transport.Present? then Fails(o, w, 400)
      else if u.proto != 17 then Fails(o, w, 500)
      else if Find(w.table, u).Some? then Fails(o, w, 437)
      else match ch.port
        case None =>
          && OnlyEntry(w.table, o.world.table, u, Some(Allocation(u, [], ZERO_ADDR, None, until)))
          && Replies(o, ErrorResponse, [AttrError(500)])
        case Some(port) =>
          && OnlyEntry(w.table, o.world.table, u, Some(Allocation(u, [], port.0, Some(port.1), until)))
          && Replies(o, SuccessResponse, [AttrMapped(u.client), AttrRelayed(port.0), AttrLifetime(cfg.defaultLifetime)])
  {
    var until := ch.now + cfg.defaultLifetime;
    if !m.transport.Present? {
      AnsweredAtOnce(srv, cfg, m, u, w, ch, Content(ErrorResponse, [AttrError(400)]));
    } else if u.proto != 17 {
      AnsweredAfter(srv, cfg, m, u, w, ch, OpReserve(u, until), Content(ErrorResponse, [AttrError(500)]));
    } else if Find(w.table, u).Some? {
      AnsweredAfter(srv, cfg, m, u, w, ch, OpReserve(u, until), Content(ErrorResponse, [AttrError(437)]));
    } else {
      AllocateNew(srv, cfg, m, u, w, ch);
    }
  }

  lemma AllocateNew(srv: Server, cfg: Config, m: Message, u: FiveTuple, w: World, ch: Chance)
    requires m.meth == MethodAllocate && m.cls == Request && LetIn(srv, cfg, m, u, w, ch) && Distinct(TupleOf, w.table)
    requires m.transport.Present? && u.proto == 17 && Find(w.table, u) == None
    ensures var o, until := Process(srv, cfg, m, u, w, ch), ch.now + cfg.defaultLifetime;
      match ch.port
      case None =>
        && OnlyEntry(w.table, o.world.table, u, Some(Allocation(u, [], ZERO_ADDR, None, until)))
        && Replies(o, ErrorResponse, [AttrError(500)])
      case Some(port) =>
        && OnlyEntry(w.table, o.world.table, u, Some(Allocation(u, [], port.0, Some(port.1), until)))
        && Replies(o, SuccessResponse, [AttrMapped(u.client), AttrRelayed(port.0), AttrLifetime(cfg.defaultLifetime)])
  {
    var until := ch.now + cfg.defaultLifetime;
    var t := Reserve(w.table, u, until).0;
    EntriesAfter(w.table, OpReserve(u, until), u);
    match ch.port
    case None => AnsweredAfterPort(srv, cfg, m, u, w, ch, until, Content(ErrorResponse, [AttrError(500)]));
    case Some(port) =>
      AnsweredAfterPort(srv, cfg, m, u, w, ch, until,
        Content(SuccessResponse, [AttrMapped(u.client), AttrRelayed(port.0), AttrLifetime(cfg.defaultLifetime)]));
      EntriesAfter(t, OpCommit(u, until, port.0, port.1), u);
      EntryTwice(w.table, t, Step(t, OpCommit(u, until, port.0, port.1)).0, u, Find(t, u), Some(Allocation(u, [], port.0, Some(port.1), until)));
  }

  /** The permission of `ip` is there until `until`, with the bindings it had; nothing else of `a` differs in `a'`. */
  ghost predicate Permits(a: Allocation, a': Allocation, ip: IP, until: Time) {
    && a' == a.(permissions := a'.permissions)
    && forall x :: Lookup(IpOf, a'.permissions, x)
         == if x != ip then Lookup(IpOf, a.permissions, x)
            else Some(Permission(ip, until, if Has(IpOf, a.permissions, ip) then Lookup(IpOf, a.permissions, ip).value.bindings else []))
  }

  lemma PermitPermits(a: Allocation, ip: IP, until: Time)
    requires WellFormedAllocation(a)
    ensures Permits(a, Permit(a, ip, until), ip, until)
  {
    var k := IndexOf(IpOf, a.permissions, ip);
    forall x ensures Lookup(IpOf, Permit(a, ip, until).permissions, x)
      == if x != ip then Lookup(IpOf, a.permissions, x)
         else Some(Permission(ip, until, if Has(IpOf, a.permissions, ip) then Lookup(IpOf, a.permissions, ip).value.bindings else []))
    {
      if k < |a.permissions| {
        LookupUpdate(IpOf, a.permissions, k, a.permissions[k].(timeout := until), x);
      } else {
        LookupAppend(IpOf, a.permissions, Permission(ip, until, []), x);
      }
    }
  }

  /** The IP is permitted to the client for the lifetime, and the client told so. */
  ghost predicate GrantsPermission(o: Outcome, w: World, u: FiveTuple, ip: IP, now: Time, l: nat) {
    && Replies(o, SuccessResponse, [AttrLifetime(l)])
    && Find(w.table, u).Some? && Find(o.world.table, u).Some? && OnlyEntry(w.table, o.world.table, u, Find(o.world.table, u))
    && Permits(Find(w.table, u).value, Find(o.world.table, u).value, ip, now + l)
  }

  lemma PermissionGranted(srv: Server, cfg: Config, m: Message, u: FiveTuple, w: World, ch: Chance, peer: Addr, l: nat)
    requires m.cls != Indication && LetIn(srv, cfg, m, u, w, ch) && WellFormed(w.table) && Find(w.table, u).Some?
    requires PlanOf(cfg, m, u, ch.now) == Do(OpCreatePermission(u, peer, ch.now + l)) && l == PermissionLifetime(cfg, m)
    ensures GrantsPermission(Process(srv, cfg, m, u, w, ch), w, u, peer.ip, ch.now, l)
  {
    AnsweredAfter(srv, cfg, m, u, w, ch, OpCreatePermission(u, peer, ch.now + l), Content(SuccessResponse, [AttrLifetime(l)]));
    PermissionEntries(w.table, u, peer, ch.now + l);
  }

  lemma PermissionEntries(t: AllocTable, u: FiveTuple, peer: Addr, until: Time)
    requires WellFormed(t) && Find(t, u).Some?
    ensures var t' := Step(t, OpCreatePermission(u, peer, until)).0;
      && Find(t', u).Some? && OnlyEntry(t, t', u, Find(t', u))
      && Permits(Find(t, u).value, Find(t', u).value, peer.ip, until)
  {
    EntriesAfter(t, OpCreatePermission(u, peer, until), u);
    PermitPermits(Find(t, u).value, peer.ip, until);
  }

  /**
   CreatePermission: an allowed peer's IP is permitted for the lifetime asked for, at most the
   maximum, or for the default; the reply says how long.
   */
  lemma CreatePermissionServed(srv: Server, cfg: Config, m: Message, u: FiveTuple, w: World, ch: Chance)
    requires m.meth == MethodCreatePermission && m.cls == Request && LetIn(srv, cfg, m, u, w, ch) && WellFormed(w.table)
    ensures var o, e := Process(srv, cfg, m, u, w, ch), Find(w.table, u);
      if !m.peer.Present? || m.lifetime == Malformed then Ignored(o, w)
      else if !Allowed(cfg.peerRule, m.peer.value.ip) then Fails(o, w, 403)
      else if e == None then Fails(o, w, 437)
      else
        var l := if m.lifetime == Missing then cfg.defaultLifetime
                 else if m.lifetime.value <= cfg.maxLifetime then m.lifetime.value else cfg.maxLifetime;
        GrantsPermission(o, w, u, m.peer.value.ip, ch.now, l)
  {
    if m.peer.Present? && m.lifetime != Malformed {
      var peer := m.peer.value;
      var l := if m.lifetime == Missing then cfg.defaultLifetime
               else if m.lifetime.value <= cfg.maxLifetime then m.lifetime.value else cfg.maxLifetime;
      var op := OpCreatePermission(u, peer, ch.now + l);
      if !Allowed(cfg.peerRule, peer.ip) {
        AnsweredAtOnce(srv, cfg, m, u, w, ch, Content(ErrorResponse, [AttrError(403)]));
      } else if Find(w.table, u) == None {
        AnsweredAfter(srv, cfg, m, u, w, ch, op, Content(ErrorResponse, [AttrError(437)]));
      } else {
        PermissionGranted(srv, cfg, m, u, w, ch, peer, l);
      }
    }
  }

  /** The table has no entry for `u`, or one that binds the peer to a channel other than `n`. */
  predicate CannotBind(t: AllocTable, u: FiveTuple, n: int, peer: Addr) {
    Find(t, u) == None || (Bound(t, u, peer).Channel? && Bound(t, u, peer) != Channel(n))
  }

  /** Ignored for a number that is no channel, refused where it cannot bind, else bound for the lifetime. */
  ghost predicate TriesBind(o: Outcome, w: World, u: FiveTuple, n: int, peer: Addr, now: Time, lifetime: nat) {
    if !(0x4000 <= n <= 0x7FFF) then Ignored(o, w)
    else if CannotBind(w.table, u, n, peer) then Fails(o, w, 437)
    else
      && Replies(o, SuccessResponse, [AttrChannel(n), AttrLifetime(lifetime)])
      && (o.world.table, Done) == ChannelBind(w.table, u, n, peer, now + lifetime)
  }

  /**
   ChannelBind: an allowed peer is bound for the default lifetime, unless it has another channel or
   there is no allocation; a number that is no channel gets no reply.
   */
  lemma ChannelBindServed(srv: Server, cfg: Config, m: Message, u: FiveTuple, w: World, ch: Chance)
    requires m.meth == MethodChannelBind && m.cls == Request && LetIn(srv, cfg, m, u, w, ch)
    ensures var o := Process(srv, cfg, m, u, w, ch);
      if !m.peer.Present? || !m.channel.Present? then Fails(o, w, 400)
      else
        var n, peer := m.channel.value, m.peer.value;
        if !Allowed(cfg.peerRule, peer.ip) then Fails(o, w, 403)
        else TriesBind(o, w, u, n, peer, ch.now, cfg.defaultLifetime)
  {
    if !m.peer.Present? || !m.channel.Present? {
      AnsweredAtOnce(srv, cfg, m, u, w, ch, Content(ErrorResponse, [AttrError(400)]));
    } else if !Allowed(cfg.peerRule, m.peer.value.ip) {
      AnsweredAtOnce(srv, cfg, m, u, w, ch, Content(ErrorResponse, [AttrError(403)]));
    } else {
      BindTried(srv, cfg, m, u, w, ch, m.channel.value, m.peer.value);
    }
  }

  lemma BindTried(srv: Server, cfg: Config, m: Message, u: FiveTuple, w: World, ch: Chance, n: int, peer: Addr)
    requires m.cls != Indication && LetIn(srv, cfg, m, u, w, ch)
    requires PlanOf(cfg, m, u, ch.now) == Do(OpChannelBind(u, n, peer, ch.now + cfg.defaultLifetime))
    ensures TriesBind(Process(srv, cfg, m, u, w, ch), w, u, n, peer, ch.now, cfg.defaultLifetime)
  {
    var until := ch.now + cfg.defaultLifetime;
    if !ValidChannel(n) {
      InvalidIgnored(srv, cfg, m, u, w, ch, n, peer, until);
    } else {
      var tr := ChannelBind(w.table, u, n, peer, until);
      BindAnswered(srv, cfg, m, u, w, ch, n, peer, until, tr);
      BindSettles(Process(srv, cfg, m, u, w, ch), w, u, n, peer, ch.now, cfg.defaultLifetime, tr);
    }
  }

  lemma BindSettles(o: Outcome, w: World, u: FiveTuple, n: int, peer: Addr, now: Time, lifetime: nat, tr: (AllocTable, Result))
    requires ValidChannel(n) && tr == ChannelBind(w.table, u, n, peer, now + lifetime)
    requires o.world.table == tr.0
    requires tr.1 == Done ==> Replies(o, SuccessResponse, [AttrChannel(n), AttrLifetime(lifetime)])
    requires tr.1 == Mismatch ==> Replies(o, ErrorResponse, [AttrError(437)])
    ensures TriesBind(o, w, u, n, peer, now, lifetime)
  {
    BindAnswers(w.table, u, n, peer, now + lifetime);
  }

  lemma BindAnswered(srv: Server, cfg: Config, m: Message, u: FiveTuple, w: World, ch: Chance, n: int, peer: Addr, until: Time,
                     tr: (AllocTable, Result))
    requires m.cls != Indication && LetIn(srv, cfg, m, u, w, ch)
    requires PlanOf(cfg, m, u, ch.now) == Do(OpChannelBind(u, n, peer, until))
    requires ValidChannel(n) && tr == Step(w.table, OpChannelBind(u, n, peer, until))
    ensures var o := Process(srv, cfg, m, u, w, ch);
      && o.world.table == tr.0
      && (tr.1 == Done ==> Replies(o, SuccessResponse, [AttrChannel(n), AttrLifetime(cfg.defaultLifetime)]))
      && (tr.1 == Mismatch ==> Replies(o, ErrorResponse, [AttrError(437)]))
  {
    var content := BindContent(cfg, m, w.table, OpChannelBind(u, n, peer, until));
    AnsweredAfter(srv, cfg, m, u, w, ch, OpChannelBind(u, n, peer, until), content);
  }

  /** What the client is told of a bind. */
  lemma BindContent(cfg: Config, m: Message, t: AllocTable, op: Op) returns (content: Content)
    requires op.OpChannelBind? && ValidChannel(op.n)
    ensures var r := Step(t, op).1;
      && FollowUp(cfg, m, op, r) == Finish(Some(content)) && Plain(content.attributes)
      && (r == Done ==> content == Content(SuccessResponse, [AttrChannel(op.n), AttrLifetime(cfg.defaultLifetime)]))
      && (r == Mismatch ==> content == Content(ErrorResponse, [AttrError(437)]))
  {
    BindAnswers(t, op.tuple, op.n, op.peer, op.timeout);
    content := if Step(t, op).1 == Done then Content(SuccessResponse, [AttrChannel(op.n), AttrLifetime(cfg.defaultLifetime)])
               else Content(ErrorResponse, [AttrError(437)]);
  }

  lemma InvalidIgnored(srv: Server, cfg: Config, m: Message, u: FiveTuple, w: World, ch: Chance, n: int, peer: Addr, until: Time)
    requires LetIn(srv, cfg, m, u, w, ch) && PlanOf(cfg, m, u, ch.now) == Do(OpChannelBind(u, n, peer, until)) && !ValidChannel(n)
    ensures Ignored(Process(srv, cfg, m, u, w, ch), w)
  {
  }

  lemma BindAnswers(t: AllocTable, u: FiveTuple, n: int, peer: Addr, timeout: Time)
    requires ValidChannel(n)
    ensures ChannelBind(t, u, n, peer, timeout).1 == if CannotBind(t, u, n, peer) then Mismatch else Done
    ensures CannotBind(t, u, n, peer) ==> ChannelBind(t, u, n, peer, timeout).0 == t
  {
  }

  /** Send: the data goes to the named peer from the client's socket exactly if its IP is permitted; never a response. */
  lemma SendServed(srv: Server, cfg: Config, m: Message, u: FiveTuple, w: World, ch: Chance)
    requires m.meth == MethodSend && m.cls == Indication && LetIn(srv, cfg, m, u, w, ch)
    ensures var o, e := Process(srv, cfg, m, u, w, ch), Find(w.table, u);
      && o.world.table == w.table && o.response == None
      && o.relayed == if m.peer.Present? && m.data.Present? && e.Some? && e.value.conn.Some?
                         && Has(IpOf, e.value.permissions, m.peer.value.ip)
                      then Some(Relay(e.value.conn.value, m.peer.value, m.data.value)) else None
  {
  }

  /** The kinds of request the server serves. */
  predicate Known(m: Message) {
    m.cls == Request && m.meth in {MethodBinding, MethodAllocate, MethodRefresh, MethodCreatePermission, MethodChannelBind}
  }

  /** Binding: the client is told its own address. Any other kind of request is refused, an indication ignored. */
  lemma OthersServed(srv: Server, cfg: Config, m: Message, u: FiveTuple, w: World, ch: Chance)
    requires LetIn(srv, cfg, m, u, w, ch)
    ensures var o := Process(srv, cfg, m, u, w, ch);
      && (m.meth == MethodBinding && m.cls == Request ==>
            o.world.table == w.table && Replies(o, SuccessResponse, [AttrMapped(u.client)]))
      && (m.cls == Indication && m.meth != MethodSend ==> Ignored(o, w))
      && (m.cls != Indication && !Known(m) ==> Fails(o, w, 400))
  {
    if m.meth == MethodBinding && m.cls == Request {
      AnsweredAtOnce(srv, cfg, m, u, w, ch, Content(SuccessResponse, [AttrMapped(u.client)]));
    } else if m.cls != Indication && !Known(m) {
      AnsweredAtOnce(srv, cfg, m, u, w, ch, Content(ErrorResponse, [AttrError(400)]));
    }
  }
}
