/**
 The request path: the authentication gate of processMessage, the handlers, and the
 response they build. Everything that runs between two lock holds is one function here.
 */
module Requests {
  import opened Turn
  import opened Options
  import opened Table
  import opened Nonces
  import opened Filtering

  /** An attribute as its decoder reports it. */
  datatype Attr<+T> = Missing | Malformed | Present(value: T)

  datatype Class = Request | Indication | SuccessResponse | ErrorResponse

  datatype Method =
    | MethodBinding | MethodAllocate | MethodRefresh | MethodSend | MethodData
    | MethodCreatePermission | MethodChannelBind | MethodOther(code: nat)

  datatype Fingerprint = NoFingerprint | GoodFingerprint | BadFingerprint

  /**
   A decoded STUN message. `raw` is the message as it came: user name, realm and integrity are in
   there for the authenticator to see, so a forged copy differs from the genuine message.
   */
  datatype Message = Message(
    raw: seq<int>,
    cls: Class,
    meth: Method,
    transactionId: nat,
    fingerprint: Fingerprint,
    nonce: Attr<string>,
    hasIntegrity: bool,
    transport: Attr<Protocol>,
    lifetime: Attr<nat>,
    peer: Attr<Addr>,
    channel: Attr<int>,
    data: Attr<seq<int>>)

  datatype Config = Config(
    realm: string,
    software: string,
    authForSTUN: bool,
    maxLifetime: nat,
    defaultLifetime: nat,
    peerRule: Rule,
    clientRule: Rule)

  const HOUR := 3600
  const MINUTE := 60

  /** The lifetimes newConfig sets. */
  predicate Standard(cfg: Config) {
    cfg.maxLifetime == HOUR && cfg.defaultLifetime == MINUTE
  }

  /** `auth` gives the integrity key of a message it accepts, by anything in it; None is a server without authentication. */
  datatype Server = Server(auth: Option<Message -> Option<string>>, nonceDuration: int)

  datatype Attribute =
    | AttrNonce(nonce: string) | AttrRealm(realm: string) | AttrSoftware(software: string)
    | AttrMapped(mapped: Addr) | AttrRelayed(relayed: Addr) | AttrLifetime(seconds: nat)
    | AttrChannel(number: int) | AttrError(code: nat) | AttrIntegrity(key: string) | AttrFingerprint

  datatype Response = Response(cls: Class, meth: Method, transactionId: nat, attributes: seq<Attribute>)

  const BAD_REQUEST := 400
  const UNAUTHORIZED := 401
  const FORBIDDEN := 403
  const ALLOC_MISMATCH := 437
  const STALE_NONCE := 438
  const SERVER_ERROR := 500

  // ------------------------------------------------------------------- gate

  predicate NeedAuth(srv: Server, cfg: Config, m: Message) {
    && srv.auth.Some?
    && m.cls != Indication
    && !(m.meth == MethodBinding && m.cls == Request && !cfg.authForSTUN)
  }

  /** The nonce value a message presents; none is the empty one. */
  function NonceOf(m: Message): string {
    if m.nonce.Present? then m.nonce.value else ""
  }

  /** The message reaches the nonce check. */
  predicate ReachesCheck(srv: Server, cfg: Config, m: Message) {
    m.fingerprint != BadFingerprint && NeedAuth(srv, cfg, m) && m.nonce != Malformed
  }

  /** The nonce to put in the response, and either an error code or leave to handle, with the integrity key. */
  datatype Gate = Rejected(nonce: string, code: nat) | Passed(nonce: string, key: string)

  function Admit(srv: Server, cfg: Config, m: Message, v: Verdict): Gate {
    if m.fingerprint == BadFingerprint then Rejected("", BAD_REQUEST)
    else if !NeedAuth(srv, cfg, m) then Passed("", "")
    else if m.nonce == Malformed then Rejected("", BAD_REQUEST)
    else if !m.hasIntegrity then Rejected(v.value, UNAUTHORIZED)
    else if v.stale then Rejected(v.value, STALE_NONCE)
    else match srv.auth.value(m)
      case Some(key) => Passed(v.value, key)
      case None => Rejected(v.value, UNAUTHORIZED)
  }

  /** The gate with its one lock hold, the nonce check. */
  function RunGate(srv: Server, cfg: Config, m: Message, ns: seq<Nonce>, u: FiveTuple, now: Time, draw: string)
    : (seq<Nonce>, Gate)
  {
    if ReachesCheck(srv, cfg, m) then
      var (ns', v) := CheckStep(ns, srv.nonceDuration, u, NonceOf(m), now, draw);
      (ns', Admit(srv, cfg, m, v))
    else (ns, Admit(srv, cfg, m, Verdict("", true)))
  }

  // --------------------------------------------------------------- handlers

  datatype Content = Content(cls: Class, attributes: seq<Attribute>)

  function Ok(attributes: seq<Attribute>): Content { Content(SuccessResponse, attributes) }
  function Error(code: nat): Content { Content(ErrorResponse, [AttrError(code)]) }

  /** What a handler does: reply at once, stop without a reply, or take one step on the table first. */
  datatype Plan = Reply(content: Content) | Silent | Do(op: Op)

  function RefreshLifetime(m: Message): nat {
    if m.lifetime.Present? then m.lifetime.value else 0
  }

  function PermissionLifetime(cfg: Config, m: Message): nat {
    if m.lifetime.Present? then
      if m.lifetime.value > cfg.maxLifetime then cfg.maxLifetime else m.lifetime.value
    else cfg.defaultLifetime
  }

  function PlanOf(cfg: Config, m: Message, u: FiveTuple, now: Time): Plan {
    match (m.meth, m.cls)
    case (MethodBinding, Request) => Reply(Ok([AttrMapped(u.client)]))
    case (MethodAllocate, Request) =>
      if !m.transport.Present? then Reply(Error(BAD_REQUEST))
      else Do(OpReserve(u, now + cfg.defaultLifetime))
    case (MethodRefresh, Request) =>
      if m.lifetime == Malformed then Silent
      else if RefreshLifetime(m) == 0 then Do(OpRemove(u))
      else Do(OpRefresh(u, now + RefreshLifetime(m)))
    case (MethodCreatePermission, Request) =>
      if !m.peer.Present? || m.lifetime == Malformed then Silent
      else if !Allowed(cfg.peerRule, m.peer.value.ip) then Reply(Error(FORBIDDEN))
      else Do(OpCreatePermission(u, m.peer.value, now + PermissionLifetime(cfg, m)))
    case (MethodChannelBind, Request) =>
      if !m.peer.Present? || !m.channel.Present? then Reply(Error(BAD_REQUEST))
      else if !Allowed(cfg.peerRule, m.peer.value.ip) then Reply(Error(FORBIDDEN))
      else Do(OpChannelBind(u, m.channel.value, m.peer.value, now + cfg.defaultLifetime))
    case (MethodSend, Indication) =>
      if !m.data.Present? || !m.peer.Present? then Silent else Do(OpSend(u, m.peer.value))
    case _ => Reply(Error(BAD_REQUEST))
  }

  /** What follows the step on the table; Allocate still has to open a port. */
  datatype Follow = Finish(content: Option<Content>) | OpenPort

  function FollowUp(cfg: Config, m: Message, op: Op, r: Result): Follow {
    match op
    case OpReserve(_, _) =>
      if r == Done then OpenPort
      else if r == Mismatch then Finish(Some(Error(ALLOC_MISMATCH)))
      else Finish(Some(Error(SERVER_ERROR)))
    case OpRemove(_) => Finish(Some(if r == Done then Ok([AttrLifetime(0)]) else Error(ALLOC_MISMATCH)))
    case OpRefresh(_, _) => Finish(Some(Ok([AttrLifetime(RefreshLifetime(m))])))
    case OpCreatePermission(_, _, _) =>
      Finish(Some(if r == Done then Ok([AttrLifetime(PermissionLifetime(cfg, m))]) else Error(ALLOC_MISMATCH)))
    case OpChannelBind(_, n, _, _) =>
      if r == Done then Finish(Some(Ok([AttrChannel(n), AttrLifetime(cfg.defaultLifetime)])))
      else if r == Mismatch then Finish(Some(Error(ALLOC_MISMATCH)))
      else Finish(None)
    case _ => Finish(None)
  }

  /** The reply of Allocate once the port allocator has answered. */
  function AfterPort(cfg: Config, u: FiveTuple, port: Option<(Addr, Conn)>): Content {
    match port
    case Some((relayed, _)) => Ok([AttrMapped(u.client), AttrRelayed(relayed), AttrLifetime(cfg.defaultLifetime)])
    case None => Error(SERVER_ERROR)
  }

  // --------------------------------------------------------------- response

  /** A response to `m`, with its method and transaction ID. */
  function ResponseTo(m: Message, realm: string, software: string, nonce: string, key: string, content: Content): Response {
    Response(content.cls, m.meth, m.transactionId,
      [AttrNonce(nonce), AttrRealm(realm)]
      + (if software != "" then [AttrSoftware(software)] else [])
      + content.attributes
      + (if key != "" then [AttrIntegrity(key)] else [])
      + [AttrFingerprint])
  }

  /** Indications get no response. */
  function Build(cfg: Config, m: Message, nonce: string, key: string, content: Content): Option<Response> {
    if m.cls == Indication then None else Some(ResponseTo(m, cfg.realm, cfg.software, nonce, key, content))
  }

  // ------------------------------------------------------- one whole request

  /** The server's shared state. */
  datatype World = World(nonces: seq<Nonce>, table: AllocTable)

  /** The inputs of a request that no one controls: the clock, a random nonce, the port allocator's answer. */
  datatype Chance = Chance(now: Time, draw: string, port: Option<(Addr, Conn)>)

  /** Data written to a peer from a relayed socket. */
  datatype Relay = Relay(conn: Conn, to: Addr, data: seq<int>)

  /** What a request leaves behind: the state, at most one response, and at most one relayed datagram. */
  datatype Outcome = Outcome(world: World, response: Option<Response>, relayed: Option<Relay>)

  function DataOf(m: Message): seq<int> {
    if m.data.Present? then m.data.value else []
  }

  function RelayOf(r: Result, data: seq<int>): Option<Relay> {
    if r.Sent? then Some(Relay(r.conn, r.to, data)) else None
  }

  function HandlePlan(cfg: Config, m: Message, u: FiveTuple, w: World, ch: Chance, nonce: string, key: string, plan: Plan): Outcome {
    match plan
    case Silent => Outcome(w, None, None)
    case Reply(content) => Outcome(w, Build(cfg, m, nonce, key, content), None)
    case Do(op) =>
      var (t, r) := Step(w.table, op);
      match FollowUp(cfg, m, op, r)
      case Finish(None) => Outcome(w.(table := t), None, RelayOf(r, DataOf(m)))
      case Finish(Some(content)) => Outcome(w.(table := t), Build(cfg, m, nonce, key, content), None)
      case OpenPort =>
        var t' := if ch.port.Some? then Commit(t, u, ch.now + cfg.defaultLifetime, ch.port.value.0, ch.port.value.1) else t;
        Outcome(w.(table := t'), Build(cfg, m, nonce, key, AfterPort(cfg, u, ch.port)), None)
  }

  /** A decoded message from gate to response, undisturbed. */
  function Process(srv: Server, cfg: Config, m: Message, u: FiveTuple, w: World, ch: Chance): Outcome {
    var (ns, gate) := RunGate(srv, cfg, m, w.nonces, u, ch.now, ch.draw);
    match gate
    case Rejected(nonce, code) => Outcome(w.(nonces := ns), Build(cfg, m, nonce, "", Error(code)), None)
    case Passed(nonce, key) => HandlePlan(cfg, m, u, w.(nonces := ns), ch, nonce, key, PlanOf(cfg, m, u, ch.now))
  }

  /** A response, if any, answers its own request; an indication gets none. */
  predicate Answers(m: Message, r: Option<Response>) {
    && (m.cls == Indication ==> r == None)
    && (r.Some? ==> r.value.transactionId == m.transactionId && r.value.meth == m.meth
                    && (r.value.cls == SuccessResponse || r.value.cls == ErrorResponse))
  }

  lemma ResponseMatches(srv: Server, cfg: Config, m: Message, u: FiveTuple, w: World, ch: Chance)
    ensures Answers(m, Process(srv, cfg, m, u, w, ch).response)
  {
  }
}
