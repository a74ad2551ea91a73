/** What holds in every state the proxy can reach. */
module ProxySafety {
  import opened Wrappers
  import opened BigEndian
  import opened Sequences
  import opened Code
  import opened NetworkState
  import opened Commands
  import opened Session
  import opened Proxy
  import opened ProxyInvariant
  import opened ProxySteps
  import opened ProxySessions
  import opened ProxyRuns
  import ConnectProxy
  import DnsProxy
  import Network
  import Packet
  import Translate

  // ----- the network -----

  /** Addresses and passcodes name each other, every routed address is
      assigned, every assignment counts exactly its own routes. So no bind
      ever finds its assignment missing, and no release finds a count of zero. */
  lemma TablesAgree(env: Env, s: State)
    requires Reachable(env, s)
    ensures MutuallyInverse(s.net) && RoutesCounted(s.net)
    ensures forall passcode, port, relay, now :: Bind(s.net, passcode, port, relay, now) != Err(AssignmentMissing)
    ensures forall k | k in s.net.routes :: k.address in s.net.byAddress && s.net.byAddress[k.address].binds >= 1
  {
    ReachableKeeps(env, s);
    forall passcode, port, relay, now ensures Bind(s.net, passcode, port, relay, now) != Err(AssignmentMissing) {
      BindOutcome(s.net, passcode, port, relay, now);
    }
    forall k | k in s.net.routes
      ensures k.address in s.net.byAddress && s.net.byAddress[k.address].binds >= 1
    {
      UnbindOutcome(s.net, k, s.now);
    }
  }

  /** Something that answers for a route: a live bound lease, or a bind that has
      claimed its port and not made its lease yet. */
  datatype Token = Held(lease: LeaseId) | InFlight(sid: SessionId)

  ghost predicate TokenFor(s: State, token: Token, k: RouteKey) {
    match token
    case Held(l) => l in s.leases && s.leases[l].key == Some(k)
    case InFlight(i) => i in s.clients && s.clients[i].phase.Binding? && s.clients[i].phase.key == k
  }

  /** The session a token belongs to. */
  function Owner(s: State, token: Token): SessionId {
    match token
    case Held(l) => if l in s.leases then s.leases[l].owner else 0
    case InFlight(i) => i
  }

  lemma TokenClaims(s: State, token: Token, k: RouteKey)
    requires TokensSound(s) && TokenFor(s, token, k)
    ensures var i := Owner(s, token); i in s.clients && Claimed(s, i) == Some(k)
    ensures k in s.net.routes && s.net.routes[k] == Owner(s, token)
  {
    var i := Owner(s, token);
    if token.Held? {
      assert LeaseSound(s, token.lease);
    }
    assert ClientSound(s.clients[i]) && HolderSound(s, i);
  }

  /** Routes and tokens correspond one to one: a port is routed exactly when
      there is a token for it, to the session that owns the token, and there
      are never two tokens for one port. */
  lemma RoutesAreTokens(env: Env, s: State, k: RouteKey)
    requires Reachable(env, s)
    ensures k in s.net.routes <==> exists token :: TokenFor(s, token, k)
    ensures forall token | TokenFor(s, token, k) :: s.net.routes[k] == Owner(s, token)
    ensures forall token, token' | TokenFor(s, token, k) && TokenFor(s, token', k) :: token == token'
  {
    ReachableKeeps(env, s);
    forall token | TokenFor(s, token, k) ensures k in s.net.routes && s.net.routes[k] == Owner(s, token) {
      TokenClaims(s, token, k);
    }
    forall token, token' | TokenFor(s, token, k) && TokenFor(s, token', k) ensures token == token' {
      OneTokenEach(s, token, token', k);
    }
    if k in s.net.routes {
      var i := s.net.routes[k];
      assert RouteSound(s, k);
      var token := if s.clients[i].phase.Binding? then InFlight(i) else Held(s.clients[i].lease.value);
      assert TokenFor(s, token, k);
    }
  }

  lemma OneTokenEach(s: State, token: Token, token': Token, k: RouteKey)
    requires TokensSound(s) && TokenFor(s, token, k) && TokenFor(s, token', k)
    ensures token == token'
  {
    TokenClaims(s, token, k);
    TokenClaims(s, token', k);
    var i := Owner(s, token);
    assert ClientSound(s.clients[i]);
    if token.Held? {
      assert LeaseSound(s, token.lease);
    }
    if token'.Held? {
      assert LeaseSound(s, token'.lease);
    }
  }

  /** Only the count on the dropped port's own address goes down. */
  ghost predicate OneBindLess(s: NetState<SessionId>, t: NetState<SessionId>, k: RouteKey) {
    && t.routes == s.routes - {k}
    && t.byAddress.Keys == s.byAddress.Keys
    && forall a | a in s.byAddress ::
         t.byAddress[a].binds == s.byAddress[a].binds - if a == k.address then 1 else 0
  }

  lemma UnbindIsOneLess(s: NetState<SessionId>, k: RouteKey, now: nat)
    requires Consistent(s) && k in s.routes
    ensures OneBindLess(s, Unbind(s, k, now), k)
  {
    UnbindOutcome(s, k, now);
    forall a | a in s.byAddress
      ensures a in Unbind(s, k, now).byAddress
      ensures Unbind(s, k, now).byAddress[a].binds == s.byAddress[a].binds - if a == k.address then 1 else 0
    {
      UnbindCounts(s, k, now, a);
    }
  }

  /** Dropping a bound session takes away exactly its own route, which is
      there, counts one bind less on its address, and leaves every other route
      in place. */
  lemma DropReleasesOwnRoute(env: Env, s: State, sid: SessionId, k: RouteKey)
    requires Reachable(env, s) && Enabled(env, s, DropSession(sid)) && Claimed(s, sid) == Some(k)
    ensures k in s.net.routes && s.net.routes[k] == sid
    ensures OneBindLess(s.net, Next(env, s, DropSession(sid)).net, k)
  {
    ReachableKeeps(env, s);
    assert HolderSound(s, sid);
    DropReleases(s, sid);
    UnbindIsOneLess(s.net, k, s.now);
  }

  /** Once every bound lease has been dropped, in whatever order, and no bind is
      under way, no route is left and every count is zero. */
  lemma NoTokensNoRoutes(env: Env, s: State)
    requires Reachable(env, s)
    requires forall k, token :: !TokenFor(s, token, k)
    ensures s.net.routes == map[]
    ensures forall a | a in s.net.byAddress :: s.net.byAddress[a].binds == 0
  {
    forall k ensures k !in s.net.routes {
      RoutesAreTokens(env, s, k);
    }
    ReachableKeeps(env, s);
    forall a | a in s.net.byAddress ensures s.net.byAddress[a].binds == 0 {
      assert RoutesOn(s.net, a) == {};
    }
  }

  // ----- sessions -----

  /** Whether the session's lease is a link to a service whose task has exited. */
  ghost predicate ServiceEnded(s: State, sid: SessionId)
    requires sid in s.clients
  {
    var lease := s.clients[sid].lease;
    && lease.Some? && lease.value in s.leases && lease.value in s.tasks
    && s.leases[lease.value].key.None?
    && s.tasks[lease.value].progress.Exited?
  }

  /** Who can still send on the relay of a session with a lease: the route and
      the task of a bound one, the task alone of a service link. */
  lemma SendersWithLease(s: State, sid: SessionId, l: LeaseId)
    requires TokensSound(s) && TasksSound(s) && sid in s.clients && Listening(s.clients[sid])
    requires s.clients[sid].lease == Some(l)
    ensures HasSender(s, sid) <==> !ServiceEnded(s, sid)
  {
    assert ClientSound(s.clients[sid]) && HolderSound(s, sid);
    assert LeaseServed(s, l);
    forall k | k in s.net.routes && s.net.routes[k] == sid ensures s.leases[l].key.Some? {
      assert RouteSound(s, k);
    }
    forall j | j in s.tasks && s.tasks[j].relay == sid ensures j == l {
      assert TaskSound(s, j);
    }
  }

  /** A session sees its relay closed exactly when it has read everything and
      its lease is a service link whose task is gone; never before it has a
      lease, and never while it holds a port. */
  lemma RelayClosedIffServiceEnded(env: Env, s: State, sid: SessionId)
    requires Reachable(env, s) && sid in s.clients && Listening(s.clients[sid])
    ensures HasSender(s, sid) <==> !ServiceEnded(s, sid)
    ensures RelayClosed(s, sid) <==> ServiceEnded(s, sid) && NextMessage(s.clients[sid]).None?
  {
    ReachableKeeps(env, s);
    assert ClientSound(s.clients[sid]);
    if s.clients[sid].lease.Some? {
      SendersWithLease(s, sid, s.clients[sid].lease.value);
    }
  }

  /** An empty relay message is exactly the signal that the lease has ended: it
      comes last, after all real data; the task that sent it had dropped its
      receiver, so the lease is no longer live; and reading it ends the session
      on either transport. */
  lemma EmptyMessageEndsLease(env: Env, s: State, sid: SessionId, j: nat)
    requires Reachable(env, s) && sid in s.clients && Listening(s.clients[sid])
    requires j < |s.clients[sid].inbox| && s.clients[sid].inbox[j] == []
    ensures j == |s.clients[sid].inbox| - 1
    ensures ServiceEnded(s, sid) && !IsLive(s, s.clients[sid].lease.value)
    ensures OnRelayMessage(s, s.clients[sid], Some([])) == Finish
  {
    ReachableKeeps(env, s);
    var c := s.clients[sid];
    assert InboxSound(s, sid) && ClientSound(c) && HolderSound(s, sid);
    assert Claimed(s, sid).None? && c.lease.Some?;
    var l := c.lease.value;
    assert LeaseServed(s, l) && ReadsInOrder(env, s.tasks[l]);
    RealDataIsNotEmpty(env, s.tasks[l]);
  }

  lemma RealDataIsNotEmpty(env: Env, task: Task)
    requires ReadsInOrder(env, task)
    ensures var relayed := Relayed(task.(progress := Working));
      NoneEmpty(relayed) && Relayed(task) == relayed + if task.progress == Exited(true) then [[]] else []
  {
    match task.job
    case Resolving(_, answered) =>
      forall i | 0 <= i < |answered| ensures DnsProxy.Answers(answered)[i] != [] {
        var (raw, found) := answered[i];
        match DnsProxy.ParseQuery(raw)
        case None => DnsProxy.ReplyDecodes(DnsProxy.Any, []);
        case Some((_, filter)) =>
          DnsProxy.ReplyDecodes(filter, if found.Some? then DnsProxy.Distinct(found.value) else []);
      }
    case _ =>
  }

  /** Whether the client's connection takes a message: a stream or a socket
      takes any, a datagram has to fit. */
  ghost predicate TakesMessage(c: Client, m: Bytes, link: Link) {
    link.up && (c.transport == OverWebTransport && c.relayUdp ==> |m| <= link.room)
  }

  lemma MessageNeedsLease(env: Env, s: State, sid: SessionId)
    requires Reachable(env, s) && sid in s.clients && s.clients[sid].phase.Serving?
    requires NextMessage(s.clients[sid]).Some?
    ensures s.clients[sid].lease.Some? && s.clients[sid].send
  {
    ReachableKeeps(env, s);
    assert InboxSound(s, sid) && ClientSound(s.clients[sid]);
  }

  /** What becomes of a message that a serving session reads off its relay.
      There is a lease, and a stream if the message goes on one; and the session
      goes on exactly if the message has content and the client's connection
      takes it. */
  lemma RelayMessageFate(env: Env, s: State, sid: SessionId, link: Link)
    requires Reachable(env, s) && sid in s.clients && s.clients[sid].phase.Serving?
    requires NextMessage(s.clients[sid]).Some?
    ensures s.clients[sid].lease.Some? && s.clients[sid].send
    ensures var c := s.clients[sid];
      var m := NextMessage(c).value;
      && OnRelayMessage(s, c, Some(m))
         == (if m == [] then Finish
             else if c.transport == OverWebTransport && c.relayUdp then WriteDatagram
             else Write)
      && (GoesOn(OnRelayMessage(s, c, Some(m)), m, link) <==> m != [] && TakesMessage(c, m, link))
  {
    var m := NextMessage(s.clients[sid]).value;
    MessageNeedsLease(env, s, sid);
    if m == [] {
      EmptyMessageEndsLease(env, s, sid, s.clients[sid].taken);
    }
  }

  /** Until a session leaves its loop it either has its own relay sender or has
      exchanged it for its one lease, datagram-only means bound, and a session
      with a lease has somewhere to write. So a session without a lease still
      has the relay that a BIND or a PROXY needs; that a refused BIND leaves it
      everything else as well is `ProxyCommands.RefusedBindCanRetry`. */
  lemma RelayOrLease(env: Env, s: State, sid: SessionId)
    requires Reachable(env, s) && sid in s.clients && Listening(s.clients[sid])
    ensures s.clients[sid].relayTx <==> s.clients[sid].lease.None?
    ensures s.clients[sid].relayUdp <==>
      s.clients[sid].lease.Some? && s.clients[sid].lease.value in s.leases
      && s.leases[s.clients[sid].lease.value].key.Some?
    ensures s.clients[sid].lease.Some? ==> s.clients[sid].send
  {
    ReachableKeeps(env, s);
    assert ClientSound(s.clients[sid]) && HolderSound(s, sid);
  }

  // ----- datagrams -----

  /** The session serves its client under a bound lease for `key`. */
  ghost predicate BoundTo(s: State, sid: SessionId, key: RouteKey) {
    && sid in s.clients && s.clients[sid].phase.Serving?
    && s.clients[sid].lease.Some? && s.clients[sid].lease.value in s.leases
    && s.leases[s.clients[sid].lease.value].key == Some(key)
    && s.clients[sid].lease.value in s.tasks
  }

  lemma BoundIsServed(env: Env, s: State, sid: SessionId, key: RouteKey)
    requires Inv(env, s) && BoundTo(s, sid, key)
    ensures var l := s.clients[sid].lease.value;
      s.leases[l].owner == sid && s.tasks[l].progress == Working && IsLive(s, l)
    ensures s.tasks[s.clients[sid].lease.value].job.Translating?
    ensures Claimed(s, sid) == Some(key) && key in s.net.routes && s.net.routes[key] == sid
    ensures IsNetworkAddress(key.address)
  {
    assert HolderSound(s, sid) && LeaseServed(s, s.clients[sid].lease.value);
    ClientAddressRange(key.address);
  }

  /** While the session reads its relay, sending on a bound lease fails exactly
      for a frame that does not decode. */
  lemma SendFailsIffFrameIsBad(env: Env, s: State, sid: SessionId, key: RouteKey, raw: Bytes)
    requires Reachable(env, s) && BoundTo(s, sid, key)
    ensures Send(s, s.clients[sid].lease.value, raw).None? <==> Packet.Decode(raw).None?
  {
    ReachableKeeps(env, s);
    BoundIsServed(env, s, sid, key);
    Network.DispatchDecides(key, raw);
  }

  /** The inbox of a session in a state. */
  function Inbox(s: State, i: SessionId): seq<Bytes> {
    if i in s.clients then s.clients[i].inbox else []
  }

  ghost predicate Receives(s: State, i: SessionId, to: RouteKey) {
    i in s.clients && Claimed(s, i) == Some(to) && Listening(s.clients[i])
  }

  /** What `deliver` does to the relays. */
  function Delivered(s: State, to: RouteKey, m: Bytes): State {
    if to in s.net.routes then Post(s, s.net.routes[to], [m]) else s
  }

  lemma DeliveredReaches(s: State, to: RouteKey, m: Bytes, i: SessionId)
    requires TokensSound(s) && i in s.clients
    ensures Inbox(Delivered(s, to, m), i) == Inbox(s, i) + if Receives(s, i, to) then [m] else []
  {
    HolderIsRouted(s, i, to);
  }

  lemma OneReceiver(s: State, i: SessionId, j: SessionId, to: RouteKey)
    requires TokensSound(s) && Receives(s, i, to) && Receives(s, j, to)
    ensures i == j
  {
    HolderIsRouted(s, i, to);
    HolderIsRouted(s, j, to);
  }

  /** The frame in which `raw`, sent by the holder of `key`, arrives. */
  ghost predicate ArrivesAs(key: RouteKey, raw: Bytes, m: Bytes) {
    Packet.Decode(raw).Some? &&
    Packet.Decode(m) == Some(Packet.Frame(key.address, key.port, Packet.Decode(raw).value.data))
  }

  /** Nothing has changed but that `m` is queued for whoever receives on `to`. */
  ghost predicate OnlyDelivers(s: State, t: State, to: RouteKey, m: Bytes) {
    && t == s.(clients := t.clients) && t.clients.Keys == s.clients.Keys
    && (forall i | i in s.clients ::
          t.clients[i] == s.clients[i].(inbox := s.clients[i].inbox + if Receives(s, i, to) then [m] else []))
    && (forall i, j | Receives(s, i, to) && Receives(s, j, to) :: i == j)
  }

  lemma DeliveredOnly(s: State, to: RouteKey, m: Bytes)
    requires TokensSound(s)
    ensures OnlyDelivers(s, Delivered(s, to, m), to, m)
  {
    var t := Delivered(s, to, m);
    forall i | i in s.clients
      ensures t.clients[i] == s.clients[i].(inbox := s.clients[i].inbox + if Receives(s, i, to) then [m] else [])
    {
      DeliveredReaches(s, to, m, i);
    }
    forall i, j | Receives(s, i, to) && Receives(s, j, to) ensures i == j {
      OneReceiver(s, i, j, to);
    }
  }

  /** The client of a bound session hands over a datagram: on a WebSocket as a
      binary message, on WebTransport as a datagram. */
  ghost predicate HandsDatagram(env: Env, s: State, sid: SessionId, key: RouteKey, via: Via, raw: Bytes) {
    Enabled(env, s, Data(sid, via, raw)) && BoundTo(s, sid, key) && !via.StreamChunk?
  }

  lemma DatagramIsSent(env: Env, s: State, sid: SessionId, key: RouteKey, via: Via, raw: Bytes)
    requires TokensSound(s) && HandsDatagram(env, s, sid, key, via, raw)
    ensures var sent := Send(s, s.clients[sid].lease.value, raw);
      sent.Some? ==> Next(env, s, Data(sid, via, raw)) == sent.value
  {
    assert HolderSound(s, sid);
  }

  /** A datagram to a private-network address is queued once, for the session
      that holds the port at that moment if it still reads its relay, and for
      nobody else, and nothing else changes; and what is queued decodes to the
      sender's own key and the payload as sent. */
  lemma DeliveredToHolderOnly(env: Env, s: State, sid: SessionId, key: RouteKey, via: Via, raw: Bytes)
    returns (m: Bytes)
    requires Reachable(env, s) && HandsDatagram(env, s, sid, key, via, raw)
    requires Packet.Decode(raw).Some? && IsNetworkAddress(Packet.Decode(raw).value.peerIp)
    ensures ArrivesAs(key, raw, m)
    ensures var f := Packet.Decode(raw).value;
      OnlyDelivers(s, Next(env, s, Data(sid, via, raw)), RouteKey(f.peerIp, f.peerPort), m)
  {
    ReachableKeeps(env, s);
    Network.DispatchDecides(key, raw);
    var to := Network.DispatchFrame(key, raw).to;
    m := Network.DispatchFrame(key, raw).wire;
    assert Send(s, s.clients[sid].lease.value, raw) == Some(Delivered(s, to, m));
    DatagramIsSent(env, s, sid, key, via, raw);
    DeliveredOnly(s, to, m);
  }

  lemma HolderIsRouted(s: State, i: SessionId, k: RouteKey)
    requires TokensSound(s) && i in s.clients
    ensures Claimed(s, i) == Some(k) <==> k in s.net.routes && s.net.routes[k] == i
  {
    assert HolderSound(s, i);
    if k in s.net.routes {
      assert RouteSound(s, k);
    }
  }

  // ----- services -----

  /** A port on the proxy's own address, fd00::1. */
  ghost predicate IsProxyPort(addr: SocketAddr, port: u16) {
    addr == SocketAddr(V6([0xfd, 0, 0, 0, 0, 0, 0, 0, 0, 0, 0, 0, 0, 0, 0, 1]), port)
  }

  /** A CONNECT session, end to end: the bytes its task has read are the
      beginning of what the session was given, what went upstream and what was
      relayed is what the one-shot view of those bytes allows, and the
      session's relay holds exactly what was relayed, with nothing after it but
      the wake-up of a task that has failed. A remote end that closes the
      connection leaves no such message: its session just finds the relay closed. */
  lemma ConnectEndToEnd(env: Env, s: State, sid: SessionId, l: LeaseId)
    requires Reachable(env, s) && sid in s.clients && Listening(s.clients[sid])
    requires s.clients[sid].lease == Some(l) && l in s.tasks && s.tasks[l].job.Connecting?
    ensures var job := s.tasks[l].job;
      && job.read <= |job.given| && job.h.stream == Concat(job.given[..job.read])
      && ConnectProxy.Refines(env.hosts, job.h.t, job.h.stream, job.h.relayed, job.h.remote)
      && s.clients[sid].inbox
         == job.h.relayed
            + if s.tasks[l].progress.Exited? && job.h.t.status == ConnectProxy.Failed then [[]] else []
  {
    ReachableKeeps(env, s);
    assert InboxSound(s, sid) && HolderSound(s, sid) && ClientSound(s.clients[sid]);
    assert LeaseServed(s, l) && ReadsInOrder(env, s.tasks[l]);
  }

  /** A resolver session, end to end: the queries answered are the first of
      those asked, and the session's relay holds one answer for each, in the
      order of the queries, good or bad, and nothing else. The task is at work
      for as long as the session reads its relay, so it never finds it closed. */
  lemma ResolveEndToEnd(env: Env, s: State, sid: SessionId, l: LeaseId)
    requires Reachable(env, s) && sid in s.clients && Listening(s.clients[sid])
    requires s.clients[sid].lease == Some(l) && l in s.tasks && s.tasks[l].job.Resolving?
    ensures var job := s.tasks[l].job;
      && |job.answered| <= |job.asked|
      && (forall j | 0 <= j < |job.answered| :: job.answered[j].0 == job.asked[j])
      && s.clients[sid].inbox == DnsProxy.Answers(job.answered)
      && AtWork(s, l) && !RelayClosed(s, sid)
  {
    ReachableKeeps(env, s);
    assert TaskSound(s, l);
    assert InboxSound(s, sid) && HolderSound(s, sid) && ClientSound(s.clients[sid]);
    assert LeaseServed(s, l) && ReadsInOrder(env, s.tasks[l]);
  }

  /** A service task, and it alone, has been given one more piece of data. */
  ghost predicate GivenOneMore(s: State, t: State, l: LeaseId, raw: Bytes) {
    && l in s.tasks && t == s.(tasks := t.tasks)
    && l in t.tasks && t.tasks == s.tasks[l := t.tasks[l]]
    && t.tasks[l] == s.tasks[l].(job := t.tasks[l].job)
    && match s.tasks[l].job
       case Connecting(h, given, read) => t.tasks[l].job == Connecting(h, given + [raw], read)
       case Resolving(asked, answered) => t.tasks[l].job == Resolving(asked + [raw], answered)
       case Translating(_, _) => false
  }

  /** A service link takes data exactly while it is live. */
  lemma ServiceTakesWhileLive(env: Env, s: State, sid: SessionId, l: LeaseId, raw: Bytes)
    requires Reachable(env, s) && sid in s.clients && s.clients[sid].lease == Some(l)
    requires l in s.leases && s.leases[l].key.None?
    ensures Send(s, l, raw).Some? <==> IsLive(s, l)
    ensures Send(s, l, raw).Some? ==> GivenOneMore(s, Send(s, l, raw).value, l, raw)
  {
    ReachableKeeps(env, s);
    assert LeaseServed(s, l);
  }

  /** Nothing goes upstream but the bytes behind an acceptable header of all
      that the session has handed over, in order and from the start, however
      it was cut and however much of it has been read. */
  lemma UpstreamIsBody(env: Env, s: State, l: LeaseId)
    requires Reachable(env, s) && l in s.tasks && s.tasks[l].job.Connecting?
    ensures var job := s.tasks[l].job;
      match ConnectProxy.Judge(env.hosts, Concat(job.given))
      case Accepted(_, body) => job.h.t.upstream <= body
      case _ => job.h.t.upstream == []
  {
    ReachableKeeps(env, s);
    var job := s.tasks[l].job;
    assert ReadsInOrder(env, s.tasks[l]);
    ConcatSplit(job.given, job.read);
    ConnectProxy.JudgeAppend(env.hosts, job.h.stream, Concat(job.given[job.read..]));
  }

  // ----- the open internet -----

  /** A translation task stops only when its lease has been dropped or its
      session no longer reads its relay. */
  lemma TranslationStopsOnlyAtTheEnd(env: Env, s: State, l: LeaseId, e: Translate.Event)
    requires Reachable(env, s) && Enabled(env, s, TranslateTurn(l, e))
    requires Next(env, s, TranslateTurn(l, e)).tasks[l].progress != Working
    ensures l !in s.leases || !Hears(s, s.tasks[l].relay)
  {
    ReachableKeeps(env, s);
    TaskClient(s, l);
    TurnStaysOpen(s, l, e);
    if l in s.leases {
      assert LeaseServed(s, l) && LeaseSound(s, l);
    }
  }

  /** Nothing has changed but that one datagram is queued for the translation
      task of lease `l`. */
  ghost predicate OnlyQueues(s: State, t: State, l: LeaseId, peer: SocketAddr, data: Bytes) {
    && l in s.tasks && s.tasks[l].job.Translating?
    && t == s.(tasks := s.tasks[l := s.tasks[l].(
         job := Translating(s.tasks[l].job.t, s.tasks[l].job.outgoing + [(peer, data)]))])
  }

  lemma OutwardSends(s: State, l: LeaseId, key: RouteKey, raw: Bytes, peer: SocketAddr, data: Bytes)
    requires l in s.leases && s.leases[l].key == Some(key)
    requires l in s.tasks && s.tasks[l].progress == Working && s.tasks[l].job.Translating?
    requires Network.DispatchFrame(key, raw) == Network.Outward(peer, data)
    ensures Send(s, l, raw).Some? && OnlyQueues(s, Send(s, l, raw).value, l, peer, data)
  {
  }

  lemma BoundTaskWorks(env: Env, s: State, sid: SessionId, key: RouteKey)
    requires Reachable(env, s) && BoundTo(s, sid, key)
    ensures TokensSound(s)
    ensures AtWork(s, s.clients[sid].lease.value) && s.tasks[s.clients[sid].lease.value].job.Translating?
  {
    ReachableKeeps(env, s);
    BoundIsServed(env, s, sid, key);
  }

  /** A datagram to any other address is queued for the session's own
      translation task, for the peer that the frame names. */
  lemma OutwardIsQueued(env: Env, s: State, sid: SessionId, key: RouteKey, via: Via, raw: Bytes)
    requires Reachable(env, s) && HandsDatagram(env, s, sid, key, via, raw)
    requires Packet.Decode(raw).Some? && !IsNetworkAddress(Packet.Decode(raw).value.peerIp)
    ensures var f := Packet.Decode(raw).value;
      OnlyQueues(s, Next(env, s, Data(sid, via, raw)), s.clients[sid].lease.value, Packet.Peer(f), f.data)
  {
    var f := Packet.Decode(raw).value;
    BoundTaskWorks(env, s, sid, key);
    Network.DispatchDecides(key, raw);
    OutwardSends(s, s.clients[sid].lease.value, key, raw, Packet.Peer(f), f.data);
    DatagramIsSent(env, s, sid, key, via, raw);
  }

  /** An answer to an internet peer, framed with the address its datagram came
      with, is queued for the translation task under that same address, unless
      the address is on the private network; an IPv4-mapped peer is answered at
      the IPv4 address it stands for. */
  lemma InternetAnswerLeaves(
    env: Env, s: State, sid: SessionId, key: RouteKey, via: Via, raw: Bytes,
    peer: SocketAddr, data: Bytes, answer: Bytes)
    requires Reachable(env, s) && HandsDatagram(env, s, sid, key, via, raw)
    requires Packet.Decode(raw) == Some(Packet.Frame(Packet.ToPeer(peer, data).peerIp, peer.port, answer))
    requires !(peer.ip.V6? && IsNetworkAddress(peer.ip.v6))
    ensures var back := Packet.Peer(Packet.ToPeer(peer, data));
      && OnlyQueues(s, Next(env, s, Data(sid, via, raw)), s.clients[sid].lease.value, back, answer)
      && (back == peer <==> !Packet.IsMapped(peer.ip))
  {
    Packet.ToPeerIs(peer, data);
    Packet.PeerRoundTrip(peer, data);
    PeerStaysOutside(peer, data);
    OutwardIsQueued(env, s, sid, key, via, raw);
  }

  lemma PeerStaysOutside(peer: SocketAddr, data: Bytes)
    requires !(peer.ip.V6? && IsNetworkAddress(peer.ip.v6))
    ensures !IsNetworkAddress(Packet.ToPeer(peer, data).peerIp)
  {
    NetworkAddressesBegin(Packet.ToPeer(peer, data).peerIp);
  }
}
