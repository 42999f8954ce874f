/**
 Serving datagrams with a pooled context. A context keeps its buffers and messages from one
 datagram to the next; reset, preparation and the response builder make that invisible.
 */
module Contexts {
  import opened Turn
  import opened Options
  import opened Table
  import opened Allocators
  import opened Nonces
  import opened Filtering
  import opened Requests

  type Byte = int
  type Bytes = seq<Byte>

  const BUFFER_SIZE := 2048

  /** The STUN and ChannelData decoders, as functions of the bytes. */
  datatype Codec = Codec(
    isMessage: Bytes -> bool,
    decode: Bytes -> Option<Message>,
    isChannelData: Bytes -> bool,
    decodeChannelData: Bytes -> Option<(int, Bytes)>)

  /** The address a datagram came from; only UDP addresses are understood. */
  datatype Source = Udp(addr: Addr) | Unknown

  datatype Datagram = Datagram(source: Source, bytes: Bytes, cfg: Config, chance: Chance)

  // -------------------------------------------------------------- meaning

  /** What serving a datagram does, with no context in sight. */
  function ServeDatagram(codec: Codec, srv: Server, here: Addr, d: Datagram, w: World): Outcome {
    if d.source == Unknown || !Allowed(d.cfg.clientRule, d.source.addr.ip) then Outcome(w, None, None)
    else ServeBytes(codec, srv, FiveTuple(d.source.addr, here, PROTO_UDP), d.bytes, d.cfg, d.chance, w)
  }

  function ServeBytes(codec: Codec, srv: Server, u: FiveTuple, bytes: Bytes, cfg: Config, ch: Chance, w: World): Outcome {
    if codec.isMessage(bytes) then
      match codec.decode(bytes)
      case None => Outcome(w, None, None)
      case Some(m) => Process(srv, cfg, m, u, w, ch)
    else if codec.isChannelData(bytes) then
      match codec.decodeChannelData(bytes)
      case None => Outcome(w, None, None)
      case Some((n, data)) => Outcome(w, None, RelayOf(SendBound(w.table, u, n), data))
    else Outcome(w, None, None)
  }

  /** What the outside sees of a datagram: the response and the relayed data. */
  datatype Seen = Seen(response: Option<Response>, relayed: Option<Relay>)

  /** The state after a sequence of datagrams, and what was seen of each. */
  function ServeAll(codec: Codec, srv: Server, here: Addr, ds: seq<Datagram>, w: World): (World, seq<Seen>) {
    if ds == [] then (w, [])
    else
      var (w', seen) := ServeAll(codec, srv, here, ds[..|ds| - 1], w);
      var o := ServeDatagram(codec, srv, here, ds[|ds| - 1], w');
      (o.world, seen + [Seen(o.response, o.relayed)])
  }

  /** A datagram is answered only to an allowed client, with its own method and transaction ID; only requests get a response. */
  lemma DatagramAnswered(codec: Codec, srv: Server, here: Addr, d: Datagram, w: World)
    ensures var r := ServeDatagram(codec, srv, here, d, w).response;
      r.Some? ==>
        && d.source.Udp? && Allowed(d.cfg.clientRule, d.source.addr.ip)
        && codec.isMessage(d.bytes) && codec.decode(d.bytes).Some?
        && var m := codec.decode(d.bytes).value;
           m.cls != Indication && r.value.transactionId == m.transactionId && r.value.meth == m.meth
  {
    if codec.isMessage(d.bytes) && codec.decode(d.bytes).Some? && d.source.Udp? {
      ResponseMatches(srv, d.cfg, codec.decode(d.bytes).value, FiveTuple(d.source.addr, here, PROTO_UDP), w, d.chance);
    }
  }

  /** The client of this datagram may use the server. */
  predicate Welcome(d: Datagram) { d.source.Udp? && Allowed(d.cfg.clientRule, d.source.addr.ip) }

  /**
   What becomes of a datagram: a STUN message of an allowed UDP client is processed for the 5-tuple
   of client and server; what is not STUN but ChannelData is relayed as the table binds its channel;
   everything else, and everything from anyone else, does nothing.
   */
  lemma DatagramServed(codec: Codec, srv: Server, here: Addr, d: Datagram, w: World)
    ensures var o := ServeDatagram(codec, srv, here, d, w);
      if Welcome(d) && codec.isMessage(d.bytes) && codec.decode(d.bytes).Some? then
        o == Process(srv, d.cfg, codec.decode(d.bytes).value, FiveTuple(d.source.addr, here, 17), w, d.chance)
      else if Welcome(d) && !codec.isMessage(d.bytes) && codec.isChannelData(d.bytes) && codec.decodeChannelData(d.bytes).Some? then
        var (n, data) := codec.decodeChannelData(d.bytes).value;
        var r := SendBound(w.table, FiveTuple(d.source.addr, here, 17), n);
        o.world == w && o.response == None && o.relayed == if r.Sent? then Some(Relay(r.conn, r.to, data)) else None
      else o == Outcome(w, None, None)
  {
  }

  lemma ServeOneMore(codec: Codec, srv: Server, here: Addr, ds: seq<Datagram>, w: World, k: nat)
    requires k < |ds|
    ensures var (w', seen) := ServeAll(codec, srv, here, ds[..k], w);
      var o := ServeDatagram(codec, srv, here, ds[k], w');
      ServeAll(codec, srv, here, ds[..k + 1], w) == (o.world, seen + [Seen(o.response, o.relayed)])
  {
    assert ds[..k + 1][..k] == ds[..k];
  }

  lemma {:induction false} SeenEach(codec: Codec, srv: Server, here: Addr, ds: seq<Datagram>, w: World, n: nat)
    requires n <= |ds|
    ensures |ServeAll(codec, srv, here, ds[..n], w).1| == n
  {
    if n > 0 {
      SeenEach(codec, srv, here, ds, w, n - 1);
      ServeOneMore(codec, srv, here, ds, w, n - 1);
    }
  }

  /** What was seen is kept as more datagrams come. */
  lemma {:induction false} SeenKept(codec: Codec, srv: Server, here: Addr, ds: seq<Datagram>, w: World, k: nat, n: nat)
    requires k <= n <= |ds|
    ensures ServeAll(codec, srv, here, ds[..k], w).1 <= ServeAll(codec, srv, here, ds[..n], w).1
    decreases n
  {
    if k < n {
      SeenKept(codec, srv, here, ds, w, k, n - 1);
      ServeOneMore(codec, srv, here, ds, w, n - 1);
    }
  }

  /** In a sequence each datagram is served once, in the state its predecessors left. */
  lemma ServedInOrder(codec: Codec, srv: Server, here: Addr, ds: seq<Datagram>, w: World, k: nat)
    requires k < |ds|
    ensures var seen := ServeAll(codec, srv, here, ds, w).1;
      && |seen| == |ds|
      && var o := ServeDatagram(codec, srv, here, ds[k], ServeAll(codec, srv, here, ds[..k], w).0);
         seen[k] == Seen(o.response, o.relayed) && ServeAll(codec, srv, here, ds[..k + 1], w).0 == o.world
  {
    assert ds[..|ds|] == ds;
    SeenEach(codec, srv, here, ds, w, k);
    SeenEach(codec, srv, here, ds, w, |ds|);
    SeenKept(codec, srv, here, ds, w, k + 1, |ds|);
    ServeOneMore(codec, srv, here, ds, w, k);
  }

  // --------------------------------------------------------------- context

  /** A response under construction; `started` once it has a header. Resetting it leaves its type and ID behind. */
  datatype Draft = Draft(started: bool, cls: Class, meth: Method, transactionId: nat, attributes: seq<Attribute>)

  class Context {
    var source: Source
    var cfg: Option<Config>
    var time: Time
    var client: Addr
    var server: Addr
    var proto: Protocol
    var tuple: FiveTuple
    var requestRaw: Bytes
    var request: Message              // as last decoded
    var response: Draft
    var channelRaw: Bytes
    var nonce: string
    var realm: string
    var integrity: string
    var buf: array<Byte>
    var bufLen: nat

    ghost predicate Valid()
      reads this
    {
      buf.Length == BUFFER_SIZE && bufLen <= BUFFER_SIZE
    }

    /** Nothing is left that a response could pick up. */
    ghost predicate Clean()
      reads this
    {
      Valid() && !response.started && response.attributes == [] && nonce == "" && realm == "" && integrity == ""
    }

    /** The response as it would be written. */
    function Written(): Option<Response>
      reads this
    {
      if response.started then Some(Response(response.cls, response.meth, response.transactionId, response.attributes)) else None
    }

    constructor (anyMessage: Message)
      ensures Clean() && Blank() && fresh(buf)
    {
      source, cfg, time, client, server, proto := Unknown, None, ZERO_TIME, ZERO_ADDR, ZERO_ADDR, 0;
      tuple := FiveTuple(ZERO_ADDR, ZERO_ADDR, 0);
      requestRaw, request := [], anyMessage;
      response, channelRaw := Draft(false, Request, MethodBinding, 0, []), [];
      nonce, realm, integrity := "", "", "";
      buf := new Byte[BUFFER_SIZE];
      bufLen := BUFFER_SIZE;
    }

    method SetTuple()
      modifies this`tuple
      ensures tuple == FiveTuple(client, server, proto)
    {
      tuple := FiveTuple(client, server, proto);
    }

    /** Every field is as in a new context, but for the last decoded request, which the next decoding overwrites. */
    ghost predicate Blank()
      reads this
    {
      && source == Unknown && cfg == None && time == ZERO_TIME
      && client == ZERO_ADDR && server == ZERO_ADDR && proto == 0 && tuple == FiveTuple(ZERO_ADDR, ZERO_ADDR, 0)
      && requestRaw == [] && channelRaw == [] && bufLen == BUFFER_SIZE
    }

    /** Forgets where the datagram came from. */
    method ClearOrigin()
      modifies this`source, this`cfg, this`time, this`client, this`server, this`proto, this`tuple
      ensures source == Unknown && cfg == None && time == ZERO_TIME
      ensures client == ZERO_ADDR && server == ZERO_ADDR && proto == 0 && tuple == FiveTuple(ZERO_ADDR, ZERO_ADDR, 0)
    {
      source, cfg, time, client, server := Unknown, None, ZERO_TIME, ZERO_ADDR, ZERO_ADDR;
      proto := 0;
      SetTuple();
    }

    /** Whatever happened before, the context is clean and blank again and its buffer all zero. */
    method Reset()
      requires Valid()
      modifies this, buf
      ensures Clean() && Blank() && buf == old(buf)
      ensures forall i :: 0 <= i < buf.Length ==> buf[i] == 0
    {
      ClearOrigin();
      requestRaw := [];
      response := response.(started := false, attributes := []);
      channelRaw := [];
      nonce, realm, integrity := "", "", "";
      bufLen := BUFFER_SIZE;
      ZeroBuffer();
    }

    method ZeroBuffer()
      modifies buf
      ensures forall i :: 0 <= i < buf.Length ==> buf[i] == 0
    {
      var i := 0;
      while i < buf.Length
        modifies buf
        invariant 0 <= i <= buf.Length
        invariant forall j :: 0 <= j < i ==> buf[j] == 0
      {
        buf[i] := 0;
        i := i + 1;
      }
    }

    /** Fills the context from the reader's buffer, of which the first `n` bytes are the datagram. */
    method Prepare(read: array<Byte>, n: nat, source: Source, server: Addr, cfg: Config)
      requires Clean() && read != buf && read.Length == BUFFER_SIZE && n <= BUFFER_SIZE
      modifies this, buf
      ensures Clean() && buf == old(buf)
      ensures buf[..bufLen] == read[..n]
      ensures this.source == source && this.server == server && this.cfg == Some(cfg)
    {
      bufLen := BUFFER_SIZE;
      forall i | 0 <= i < BUFFER_SIZE {
        buf[i] := read[i];
      }
      this.source := source;
      bufLen := n;
      this.server := server;
      this.cfg := Some(cfg);
    }

    /** The SOFTWARE value; an unset configuration has none. */
    function Software(): string
      reads this
    {
      if cfg.Some? then cfg.value.software else ""
    }

    /** Builds the response in place, over whatever was there; for indications leaves it alone. */
    method Build(cls: Class, attributes: seq<Attribute>)
      modifies this`response
      ensures request.cls == Indication ==> response == old(response)
      ensures request.cls != Indication ==>
        Written() == Some(ResponseTo(request, realm, Software(), nonce, integrity, Content(cls, attributes)))
    {
      if request.cls == Indication {
        return;
      }
      response := response.(started := false, attributes := []);
      response := response.(cls := cls, meth := request.meth, transactionId := request.transactionId);
      response := response.(started := true);
      var attrs := [AttrNonce(nonce), AttrRealm(realm)];
      if |Software()| > 0 {
        attrs := attrs + [AttrSoftware(Software())];
      }
      attrs := attrs + attributes;
      if |integrity| > 0 {
        attrs := attrs + [AttrIntegrity(integrity)];
      }
      attrs := attrs + [AttrFingerprint];
      response := response.(attributes := attrs);
      assert attrs == ResponseTo(request, realm, Software(), nonce, integrity, Content(cls, attributes)).attributes;
    }

    method BuildErr(code: nat)
      requires cfg.Some? && realm == cfg.value.realm && !response.started
      modifies this`response
      ensures Written() == Requests.Build(cfg.value, request, nonce, integrity, Error(code))
    {
      Build(ErrorResponse, [AttrError(code)]);
    }

    method BuildOk(attributes: seq<Attribute>)
      requires cfg.Some? && realm == cfg.value.realm && !response.started
      modifies this`response
      ensures Written() == Requests.Build(cfg.value, request, nonce, integrity, Ok(attributes))
    {
      Build(SuccessResponse, attributes);
    }
  }

  // ---------------------------------------------------------------- server

  /** What the request comes to once its step on the table is taken, if no port is to be opened. */
  lemma Settles(cfg: Config, m: Message, u: FiveTuple, w: World, ch: Chance, nonce: string, key: string, op: Op, t: AllocTable, r: Result)
    requires (t, r) == Step(w.table, op) && FollowUp(cfg, m, op, r).Finish?
    ensures HandlePlan(cfg, m, u, w, ch, nonce, key, Do(op))
      == match FollowUp(cfg, m, op, r).content
         case None => Outcome(World(w.nonces, t), None, RelayOf(r, DataOf(m)))
         case Some(content) => Outcome(World(w.nonces, t), Build(cfg, m, nonce, key, content), None)
  {
  }

  class TurnServer {
    const codec: Codec
    const srv: Server
    const here: Addr
    const nonces: NonceAuth
    const allocs: Allocator

    ghost predicate Valid()
      reads this, nonces, allocs
    {
      allocs.Valid() && nonces.duration == srv.nonceDuration
    }

    ghost function TheWorld(): World
      reads nonces, allocs
    {
      World(nonces.nonces, allocs.allocs)
    }

    constructor (codec: Codec, srv: Server, here: Addr)
      ensures Valid() && TheWorld() == World([], [])
    {
      this.codec, this.srv, this.here := codec, srv, here;
      nonces := new NonceAuth(srv.nonceDuration);
      allocs := new Allocator();
    }

    /** A context ready for a handler. */
    ghost predicate Ready(ctx: Context)
      reads ctx
    {
      ctx.cfg.Some? && ctx.realm == ctx.cfg.value.realm && !ctx.response.started
    }

    /** The handler did what a plan says. */
    twostate predicate Followed(ctx: Context, chance: Chance, ok: bool, new relayed: Option<Relay>, plan: Plan)
      requires old(ctx.cfg.Some?)
      reads ctx, nonces, allocs
    {
      Outcome(TheWorld(), if ok then ctx.Written() else None, relayed)
        == HandlePlan(old(ctx.cfg.value), old(ctx.request), old(ctx.tuple), old(TheWorld()), chance, old(ctx.nonce), old(ctx.integrity), plan)
    }

    /** The handler did what the plan for its message says. */
    twostate predicate Handled(ctx: Context, chance: Chance, ok: bool, new relayed: Option<Relay>)
      requires old(ctx.cfg.Some?)
      reads ctx, nonces, allocs
    {
      Followed(ctx, chance, ok, relayed, PlanOf(old(ctx.cfg.value), old(ctx.request), old(ctx.tuple), chance.now))
    }

    method ProcessBindingRequest(ctx: Context, ghost chance: Chance) returns (ok: bool)
      requires Valid() && Ready(ctx) && ctx.request.meth == MethodBinding && ctx.request.cls == Request
      requires ctx.tuple.client == ctx.client
      modifies ctx`response
      ensures Valid() && Handled(ctx, chance, ok, None)
    {
      ctx.BuildOk([AttrMapped(ctx.client)]);
      ok := true;
    }

    method ProcessAllocateRequest(ctx: Context, chance: Chance) returns (ok: bool)
      requires Valid() && Ready(ctx) && ctx.request.meth == MethodAllocate && ctx.request.cls == Request
      requires ctx.time == chance.now
      modifies ctx`response, allocs
      ensures Valid() && Handled(ctx, chance, ok, None)
    {
      ok := true;
      if !ctx.request.transport.Present? {
        ctx.BuildErr(BAD_REQUEST);
        return;
      }
      var lifetime := ctx.cfg.value.defaultLifetime;
      var timeout := ctx.time + lifetime;
      ghost var op := OpReserve(ctx.tuple, timeout);
      assert PlanOf(ctx.cfg.value, ctx.request, ctx.tuple, chance.now) == Do(op);
      var r := allocs.Reserve(ctx.tuple, timeout);
      assert (allocs.allocs, r) == Step(old(allocs.allocs), op);
      if r == Mismatch {
        ctx.BuildErr(ALLOC_MISMATCH);
      } else if r != Done {
        ctx.BuildErr(SERVER_ERROR);
      } else {
        match chance.port
        case None => ctx.BuildErr(SERVER_ERROR);
        case Some(port) =>
          allocs.Commit(ctx.tuple, timeout, port.0, port.1);
          ctx.BuildOk([AttrMapped(ctx.tuple.client), AttrRelayed(port.0), AttrLifetime(lifetime)]);
      }
    }

    /** Removes the allocation for lifetime zero, refreshes it for any other, and replies. */
    method Renew(ctx: Context, ghost chance: Chance, lifetime: nat)
      requires Valid() && Ready(ctx) && lifetime == RefreshLifetime(ctx.request)
      modifies ctx`response, allocs
      ensures Valid()
      ensures Followed(ctx, chance, true, None,
        Do(if lifetime == 0 then OpRemove(ctx.tuple) else OpRefresh(ctx.tuple, ctx.time + lifetime)))
    {
      var r: Result;
      if lifetime == 0 {
        var dealloc: seq<Allocation>;
        r, dealloc := allocs.Remove(ctx.tuple);
      } else {
        r := allocs.Refresh(ctx.tuple, ctx.time + lifetime);
      }
      if r == Done {
        ctx.BuildOk([AttrLifetime(lifetime)]);
      } else {
        ctx.BuildErr(ALLOC_MISMATCH);
      }
    }

    method ProcessRefreshRequest(ctx: Context, ghost chance: Chance) returns (ok: bool)
      requires Valid() && Ready(ctx) && ctx.request.meth == MethodRefresh && ctx.request.cls == Request
      requires ctx.time == chance.now
      modifies ctx`response, allocs
      ensures Valid() && Handled(ctx, chance, ok, None)
    {
      if ctx.request.lifetime == Malformed {
        return false;
      }
      ok := true;
      var lifetime := 0;
      if ctx.request.lifetime.Present? {
        lifetime := ctx.request.lifetime.value;
      }
      Renew(ctx, chance, lifetime);
    }

    method ProcessCreatePermissionRequest(ctx: Context, ghost chance: Chance) returns (ok: bool)
      requires Valid() && Ready(ctx) && ctx.request.meth == MethodCreatePermission && ctx.request.cls == Request
      requires ctx.time == chance.now
      modifies ctx`response, allocs
      ensures Valid() && Handled(ctx, chance, ok, None)
    {
      if !ctx.request.peer.Present? {
        return false;
      }
      var lifetime := ctx.cfg.value.defaultLifetime;
      match ctx.request.lifetime {
        case Malformed => return false;
        case Missing =>
        case Present(seconds) =>
          lifetime := seconds;
          if lifetime > ctx.cfg.value.maxLifetime {
            lifetime := ctx.cfg.value.maxLifetime;
          }
      }
      ok := true;
      var peer := ctx.request.peer.value;
      if !Allowed(ctx.cfg.value.peerRule, peer.ip) {
        ctx.BuildErr(FORBIDDEN);
        return;
      }
      ghost var op := OpCreatePermission(ctx.tuple, peer, ctx.time + lifetime);
      assert PlanOf(ctx.cfg.value, ctx.request, ctx.tuple, chance.now) == Do(op);
      var r := allocs.CreatePermission(ctx.tuple, peer, ctx.time + lifetime);
      assert (allocs.allocs, r) == Step(old(allocs.allocs), op);
      if r == Done {
        ctx.BuildOk([AttrLifetime(lifetime)]);
      } else {
        ctx.BuildErr(ALLOC_MISMATCH);
      }
    }

    method ProcessChannelBinding(ctx: Context, ghost chance: Chance) returns (ok: bool)
      requires Valid() && Ready(ctx) && ctx.request.meth == MethodChannelBind && ctx.request.cls == Request
      requires ctx.time == chance.now
      modifies ctx`response, allocs
      ensures Valid() && Handled(ctx, chance, ok, None)
    {
      ok := true;
      if !ctx.request.peer.Present? || !ctx.request.channel.Present? {
        ctx.BuildErr(BAD_REQUEST);
        return;
      }
      var peer, n, lifetime := ctx.request.peer.value, ctx.request.channel.value, ctx.cfg.value.defaultLifetime;
      if !Allowed(ctx.cfg.value.peerRule, peer.ip) {
        ctx.BuildErr(FORBIDDEN);
        return;
      }
      ghost var op := OpChannelBind(ctx.tuple, n, peer, ctx.time + lifetime);
      assert PlanOf(ctx.cfg.value, ctx.request, ctx.tuple, chance.now) == Do(op);
      var r := allocs.ChannelBind(ctx.tuple, n, peer, ctx.time + lifetime);
      assert (allocs.allocs, r) == Step(old(allocs.allocs), op);
      if r == Mismatch {
        ctx.BuildErr(ALLOC_MISMATCH);
      } else if r == Done {
        ctx.BuildOk([AttrChannel(n), AttrLifetime(lifetime)]);
      } else {
        ok := false;
      }
      Settles(ctx.cfg.value, ctx.request, ctx.tuple, old(TheWorld()), chance, ctx.nonce, ctx.integrity, op, allocs.allocs, r);
    }

    method ProcessSendIndication(ctx: Context, ghost chance: Chance) returns (ok: bool, relayed: Option<Relay>)
      requires Valid() && Ready(ctx) && ctx.request.meth == MethodSend && ctx.request.cls == Indication
      modifies ctx`response
      ensures Valid() && Handled(ctx, chance, ok, relayed)
    {
      if !ctx.request.data.Present? || !ctx.request.peer.Present? {
        return false, None;
      }
      var r := allocs.Send(ctx.tuple, ctx.request.peer.value);
      ok, relayed := true, RelayOf(r, ctx.request.data.value);
    }

    /** Selects the handler by message type. */
    method Dispatch(ctx: Context, chance: Chance) returns (ok: bool, relayed: Option<Relay>)
      requires Valid() && Ready(ctx) && ctx.time == chance.now && ctx.tuple.client == ctx.client
      modifies ctx`response, allocs
      ensures Valid() && Handled(ctx, chance, ok, relayed)
    {
      relayed := None;
      match (ctx.request.meth, ctx.request.cls) {
        case (MethodBinding, Request) => ok := ProcessBindingRequest(ctx, chance);
        case (MethodAllocate, Request) => ok := ProcessAllocateRequest(ctx, chance);
        case (MethodCreatePermission, Request) => ok := ProcessCreatePermissionRequest(ctx, chance);
        case (MethodRefresh, Request) => ok := ProcessRefreshRequest(ctx, chance);
        case (MethodSend, Indication) => ok, relayed := ProcessSendIndication(ctx, chance);
        case (MethodChannelBind, Request) => ok := ProcessChannelBinding(ctx, chance);
        case _ =>
          ctx.BuildErr(BAD_REQUEST);
          ok := true;
      }
    }

    /** The gate: leave to go on, with nonce and key in the context, or an error response. */
    method Authenticate(ctx: Context, chance: Chance) returns (pass: bool)
      requires Valid() && Ready(ctx) && ctx.time == chance.now && ctx.nonce == "" && ctx.integrity == ""
      modifies ctx`nonce, ctx`integrity, ctx`response, nonces
      ensures Valid()
      ensures var (ns, gate) := RunGate(srv, ctx.cfg.value, ctx.request, old(nonces.nonces), ctx.tuple, chance.now, chance.draw);
        && nonces.nonces == ns && pass == gate.Passed? && ctx.nonce == gate.nonce
        && (pass ==> ctx.integrity == gate.key && !ctx.response.started)
        && (!pass ==> ctx.Written() == Requests.Build(ctx.cfg.value, ctx.request, gate.nonce, "", Error(gate.code)))
    {
      pass := false;
      if ctx.request.fingerprint == BadFingerprint {
        ctx.BuildErr(BAD_REQUEST);
        return;
      }
      if !NeedAuth(srv, ctx.cfg.value, ctx.request) {
        return true;
      }
      if ctx.request.nonce == Malformed {
        ctx.BuildErr(BAD_REQUEST);
        return;
      }
      if ctx.request.nonce.Present? {
        ctx.nonce := ctx.request.nonce.value;
      }
      var v := nonces.Check(ctx.tuple, ctx.nonce, ctx.time, chance.draw);
      ctx.nonce := v.value;
      if !ctx.request.hasIntegrity {
        ctx.BuildErr(UNAUTHORIZED);
        return;
      }
      if v.stale {
        ctx.BuildErr(STALE_NONCE);
        return;
      }
      match srv.auth.value(ctx.request) {
        case Some(key) =>
          ctx.integrity := key;
          pass := true;
        case None => ctx.BuildErr(UNAUTHORIZED);
      }
    }

    /** The gate, then the handler. */
    method ProcessMessage(ctx: Context, chance: Chance) returns (ok: bool, relayed: Option<Relay>)
      requires Valid() && ctx.Clean() && ctx.cfg.Some? && ctx.time == chance.now && ctx.tuple.client == ctx.client
      modifies ctx`request, ctx`realm, ctx`nonce, ctx`integrity, ctx`response, allocs, nonces
      ensures Valid()
      ensures Outcome(TheWorld(), if ok then ctx.Written() else None, relayed)
        == match codec.decode(ctx.requestRaw)
           case None => Outcome(old(TheWorld()), None, None)
           case Some(m) => Process(srv, ctx.cfg.value, m, ctx.tuple, old(TheWorld()), chance)
    {
      ok, relayed := true, None;
      match codec.decode(ctx.requestRaw) {
        case None =>
        case Some(m) =>
          ctx.request := m;
          ctx.realm := ctx.cfg.value.realm;
          var pass := Authenticate(ctx, chance);
          if pass {
            ok, relayed := Dispatch(ctx, chance);
          }
      }
    }

    /** Serves the datagram a context was prepared with. Whatever else the context holds does not matter. */
    method ServeConn(ctx: Context, chance: Chance) returns (response: Option<Response>, relayed: Option<Relay>)
      requires Valid() && ctx.Clean() && ctx.cfg.Some? && ctx.server == here
      modifies ctx, allocs, nonces
      ensures Valid() && ctx.Valid() && ctx.buf == old(ctx.buf)
      ensures Outcome(TheWorld(), response, relayed)
        == ServeDatagram(codec, srv, here,
             Datagram(old(ctx.source), old(ctx.buf[..ctx.bufLen]), old(ctx.cfg.value), chance), old(TheWorld()))
    {
      response, relayed := None, None;
      ctx.time := chance.now;
      ctx.requestRaw := ctx.buf[..ctx.bufLen];
      ctx.channelRaw := ctx.buf[..ctx.bufLen];
      match ctx.source {
        case Unknown => return;
        case Udp(a) =>
          ctx.client := a;
          ctx.proto := PROTO_UDP;
      }
      if !Allowed(ctx.cfg.value.clientRule, ctx.client.ip) {
        return;
      }
      ctx.SetTuple();
      var ok: bool;
      ok, relayed := Demultiplex(ctx, chance);
      if ok {
        response := ctx.Written();
      }
    }

    /** STUN messages are processed; ChannelData is relayed and gets no response; anything else is an error. */
    method Demultiplex(ctx: Context, chance: Chance) returns (ok: bool, relayed: Option<Relay>)
      requires Valid() && ctx.Clean() && ctx.cfg.Some? && ctx.time == chance.now && ctx.tuple.client == ctx.client
      requires ctx.channelRaw == ctx.requestRaw
      modifies ctx`request, ctx`realm, ctx`nonce, ctx`integrity, ctx`response, allocs, nonces
      ensures Valid()
      ensures Outcome(TheWorld(), if ok then ctx.Written() else None, relayed)
        == ServeBytes(codec, srv, ctx.tuple, ctx.requestRaw, ctx.cfg.value, chance, old(TheWorld()))
    {
      ok, relayed := false, None;
      if codec.isMessage(ctx.requestRaw) {
        ok, relayed := ProcessMessage(ctx, chance);
      } else if codec.isChannelData(ctx.channelRaw) {
        ok := true;
        match codec.decodeChannelData(ctx.channelRaw) {
          case None =>
          case Some(cd) =>
            var r := allocs.SendBound(ctx.tuple, cd.0);
            ok, relayed := r.Sent?, RelayOf(r, cd.1);
        }
      }
    }

    /**
     One context, used for datagram after datagram, put back and taken again in between:
     every response, and everything relayed, is what a new context would have given.
     */
    method ServePooled(ctx: Context, read: array<Byte>, ds: seq<Datagram>) returns (seen: seq<Seen>)
      requires Valid() && ctx.Clean() && read != ctx.buf && read.Length == BUFFER_SIZE
      requires forall d :: d in ds ==> |d.bytes| <= BUFFER_SIZE
      modifies ctx, ctx.buf, read, allocs, nonces
      ensures Valid() && ctx.Clean()
      ensures (TheWorld(), seen) == ServeAll(codec, srv, here, ds, old(TheWorld()))
    {
      seen := [];
      var k := 0;
      while k < |ds|
        invariant 0 <= k <= |ds| && Valid() && ctx.Clean() && ctx.buf == old(ctx.buf)
        invariant (TheWorld(), seen) == ServeAll(codec, srv, here, ds[..k], old(TheWorld()))
      {
        var d := ds[k];
        assert d in ds && ds[..k + 1][..k] == ds[..k];
        forall i | 0 <= i < |d.bytes| {
          read[i] := d.bytes[i];
        }
        assert read[..|d.bytes|] == d.bytes;
        ctx.Prepare(read, |d.bytes|, d.source, here, d.cfg);
        var r, relayed := ServeConn(ctx, d.chance);
        seen := seen + [Seen(r, relayed)];
        ctx.Reset();
        k := k + 1;
      }
      assert ds[..k] == ds;
    }
  }
}
