/** What can happen: from every reachable state a new client can come to hold a
    port, over either transport and whatever the others are doing. So what is
    said of bound sessions is said of something. */
module ProxyPossible {
  import opened Wrappers
  import opened BigEndian
  import opened Code
  import opened NetworkState
  import opened Commands
  import opened Session
  import opened Proxy
  import opened ProxyInvariant
  import opened ProxySessions
  import opened ProxyRuns
  import opened ProxySafety
  import opened ProxyHistory
  import opened ProxyLives
  import opened ProxyOversize
  import Network
  import Text
  import WebTransport

  /** A session that can be given a command. */
  ghost predicate Ready(s: State, sid: SessionId, transport: Transport) {
    && sid in s.clients && s.clients[sid].phase.Serving? && s.clients[sid].transport == transport
    && s.clients[sid].send && s.clients[sid].relayTx && s.clients[sid].lease.None?
    && s.clients[sid].inbox == [] && s.clients[sid].taken == 0
    && BufOf(s, sid) == []
  }

  /** Nothing has changed for anybody else. */
  ghost predicate OthersStay(s: State, t: State, sid: SessionId) {
    && (forall i | i in s.clients && i != sid ::
          i in t.clients && t.clients[i] == s.clients[i] && BufOf(t, i) == BufOf(s, i))
    && (forall l | l in s.leases :: l in t.leases && t.leases[l] == s.leases[l])
    && (forall l | l in s.tasks :: l in t.tasks && t.tasks[l] == s.tasks[l])
    && t.clients.Keys <= s.clients.Keys + {sid} && t.bufs.Keys <= s.bufs.Keys + {sid}
  }

  /** No names are known but those known before and these. */
  ghost predicate NamesWithin(s: State, t: State, address: Ipv6, passcode: Passcode) {
    && t.net.byAddress.Keys <= s.net.byAddress.Keys + {address}
    && t.net.byPasscode.Keys <= s.net.byPasscode.Keys + {passcode}
  }

  lemma OpensReady(env: Env, s: State, sid: SessionId, transport: Transport) returns (t: State)
    requires Reachable(env, s) && sid !in s.clients && sid !in s.bufs
    ensures Reachable(env, t) && Ready(t, sid, transport) && OthersStay(s, t, sid)
    ensures t.net == s.net && t.now == s.now && t.tasks == s.tasks
  {
    t := Next(env, s, Open(sid, transport));
    ReachableNext(env, s, Open(sid, transport));
    if transport == OverWebTransport {
      var u := t;
      t := Next(env, u, AcceptStream(sid));
      ReachableNext(env, u, AcceptStream(sid));
    }
  }

  lemma ReadsChunk(env: Env, s: State, sid: SessionId, data: Bytes) returns (t: State)
    requires Reachable(env, s) && Ready(s, sid, OverWebTransport) && data != []
    ensures t == s.(bufs := s.bufs[sid := BufOf(s, sid) + data]) && Reachable(env, t)
  {
    t := Next(env, s, Buffer(sid, data));
    ReachableNext(env, s, Buffer(sid, data));
  }

  lemma LineIsThere(s: State, sid: SessionId, raw: Bytes)
    requires BufOf(s, sid) == [] + (raw + [WebTransport.NEWLINE]) && WebTransport.NEWLINE !in raw
    ensures HasLine(s, sid, raw) && BufOf(s, sid) == raw + [WebTransport.NEWLINE]
  {
    var data := raw + [WebTransport.NEWLINE];
    assert [] + data == data == data + [] && data[..|raw|] == raw;
    WebTransport.IndexOfLine(WebTransport.NEWLINE, raw, []);
  }

  /** The line is where the session takes its next command from. */
  lemma LineArrives(env: Env, s: State, sid: SessionId, transport: Transport, raw: Bytes) returns (t: State)
    requires Reachable(env, s) && Ready(s, sid, transport) && WebTransport.NEWLINE !in raw
    ensures Reachable(env, t) && t == s.(bufs := t.bufs) && OthersStay(s, t, sid)
    ensures transport == OverWebTransport ==> HasLine(t, sid, raw) && BufOf(t, sid) == raw + [WebTransport.NEWLINE]
    ensures transport == OverWebSocket ==> t == s
  {
    t := s;
    if transport == OverWebTransport {
      t := ReadsChunk(env, s, sid, raw + [WebTransport.NEWLINE]);
      LineIsThere(t, sid, raw);
    }
  }

  lemma PlainLine(text: string, raw: Bytes)
    requires Text.AsciiText(text) && '\n' !in text && raw == Text.Encode(text)
    ensures WebTransport.NEWLINE !in raw && |raw| == |text|
  {
    forall i | 0 <= i < |raw| ensures raw[i] != WebTransport.NEWLINE {
      assert Text.Decode(raw)[i] == text[i] && text[i] in text;
    }
  }

  lemma NewAddressLine(env: Env, relay: Option<Relay>) returns (raw: Bytes)
    ensures PlanCommand(env.ip, raw, relay) == Ask(NewAddress) && WebTransport.NEWLINE !in raw
  {
    raw := Text.Encode("NEWADDR");
    PlainLine("NEWADDR", raw);
    PlainSpells("NEWADDR", raw);
    Text.OneWord("NEWADDR", Text.WHITE_SPACE);
    NewAddressLineReads(env.ip, raw, relay);
  }

  lemma PlainSpells(text: string, raw: Bytes)
    requires Text.AsciiText(text) && raw == Text.Encode(text)
    ensures Text.Spells(raw, text)
  {
    Text.DecodeReads(raw, text);
  }

  lemma BindText(passcode: Passcode)
    ensures var text := "BIND" + (" " + passcode + (" " + "UDP" + (" " + "1")));
      Text.AsciiText(text) && '\n' !in text && |text| == 27
  {
    PasscodeRoundTrip(passcode, []);
    forall i | 0 <= i < |passcode| ensures passcode[i] != '\n' {
      assert passcode[i] !in Text.WHITE_SPACE;
    }
  }

  lemma BindLine(env: Env, passcode: Passcode, tx: Relay) returns (raw: Bytes)
    ensures PlanCommand(env.ip, raw, Some(tx)) == Ask(Claim(passcode, 1, tx)) && WebTransport.NEWLINE !in raw
  {
    var text := "BIND" + (" " + passcode + (" " + "UDP" + (" " + "1")));
    BindText(passcode);
    PasscodeRoundTrip(passcode, []);
    Text.FourWords("BIND", passcode, "UDP", "1", Text.WHITE_SPACE);
    raw := Text.Encode(text);
    PlainLine(text, raw);
    PlainSpells(text, raw);
    Text.DigitWrites(1);
    assert IsBindLine(raw, passcode, "1", 1);
    BindLineReads(env.ip, raw, passcode, 1, tx);
  }

  /** A command is run off the buffer, or as it comes. */
  lemma RunsCommand(env: Env, s: State, sid: SessionId, raw: Bytes, choice: Choice) returns (t: State)
    requires Reachable(env, s) && sid in s.clients && s.clients[sid].phase.Serving? && s.clients[sid].send
    requires s.clients[sid].lease.None? && (s.clients[sid].transport == OverWebTransport ==> HasLine(s, sid, raw))
    requires ChoiceAllowed(s, PlanFor(env, s.clients[sid], sid, raw), choice)
    ensures t == RunCommand(env, s, sid, raw, choice).(bufs := LineTaken(s, sid, raw)) && Reachable(env, t)
  {
    t := Next(env, s, Command(sid, raw, choice));
    ReachableNext(env, s, Command(sid, raw, choice));
  }

  lemma LineGone(s: State, sid: SessionId, raw: Bytes)
    requires sid in s.clients
    requires if s.clients[sid].transport == OverWebTransport then BufOf(s, sid) == raw + [WebTransport.NEWLINE]
             else BufOf(s, sid) == []
    ensures BufOf(s.(bufs := LineTaken(s, sid, raw)), sid) == []
    ensures forall i | i != sid :: BufOf(s.(bufs := LineTaken(s, sid, raw)), i) == BufOf(s, i)
    ensures LineTaken(s, sid, raw).Keys <= s.bufs.Keys + {sid}
  {
  }

  lemma AddressServed(env: Env, s: State, sid: SessionId, raw: Bytes, choice: Choice)
    requires sid in s.clients && s.clients[sid].phase.Serving? && s.clients[sid].lease.None? && choice.answered
    requires s.clients[sid].relayTx && PlanFor(env, s.clients[sid], sid, raw) == Ask(NewAddress)
    ensures var t, c := RunCommand(env, s, sid, raw, choice), s.clients[sid];
      && t.net == Issued(Expired(s.net, s.now), choice.address, choice.passcode, choice.later)
      && (exists replies :: t.clients == s.clients[sid := c.(replies := replies)])
      && t.leases == s.leases && t.tasks == s.tasks && t.now == choice.later && t.bufs == s.bufs
  {
    var c := s.clients[sid];
    var t := RunCommand(env, s, sid, raw, choice);
    assert t.clients[sid] == c.(replies := t.clients[sid].replies);
    assert t.clients == s.clients[sid := c.(replies := t.clients[sid].replies)];
  }

  lemma IssuedNames(net: NetState<SessionId>, now: nat, address: Ipv6, passcode: Passcode)
    requires Consistent(net) && IsClientAddress(address) && IsFree(net, address, passcode)
    ensures var t := Issued(Expired(net, now), address, passcode, now);
      && IsFree(Expired(net, now), address, passcode)
      && RoutesOn(t, address) == {} && passcode in t.byPasscode && t.byPasscode[passcode] == address
      && t.byAddress.Keys <= net.byAddress.Keys + {address} && t.byPasscode.Keys <= net.byPasscode.Keys + {passcode}
  {
    ExpiredConsistent(net, now);
    IssuedIsFresh(Expired(net, now), address, passcode, now);
  }

  /** A ready session asks for an address and gets a free one. */
  lemma GetsAddress(
    env: Env, s: State, sid: SessionId, transport: Transport, address: Ipv6, passcode: Passcode, l: LeaseId)
    returns (t: State)
    requires Reachable(env, s) && Ready(s, sid, transport) && l !in s.tasks
    requires IsClientAddress(address) && IsFree(s.net, address, passcode)
    ensures Reachable(env, t) && Ready(t, sid, transport) && OthersStay(s, t, sid)
    ensures Resolves(t, passcode, address) && RoutesOn(t.net, address) == {}
    ensures NamesWithin(s, t, address, passcode) && t.tasks == s.tasks && t.now == s.now
  {
    var raw := NewAddressLine(env, Some(sid));
    var u := LineArrives(env, s, sid, transport, raw);
    var choice := Choice(address, passcode, s.now, l, true);
    KnownOf(env, s, sid, l);
    IssuedNames(s.net, s.now, address, passcode);
    t := RunsCommand(env, u, sid, raw, choice);
    AddressServed(env, u, sid, raw, choice);
    LineGone(u, sid, raw);
    CommandStays(u, t, sid);
    OthersStayTwice(s, u, t, sid);
  }

  /** The session holds the port and has read all that is on its relay. */
  ghost predicate Waiting(s: State, sid: SessionId, transport: Transport, key: RouteKey) {
    && BoundTo(s, sid, key) && s.clients[sid].transport == transport
    && s.clients[sid].inbox == [] && s.clients[sid].taken == 0 && BufOf(s, sid) == []
  }

  lemma PortServed(
    env: Env, s: State, sid: SessionId, raw: Bytes, choice: Choice, passcode: Passcode, key: RouteKey)
    requires Consistent(s.net) && sid in s.clients && s.clients[sid].lease.None?
    requires PlanFor(env, s.clients[sid], sid, raw) == Ask(Claim(passcode, key.port, sid)) && key.port != 0
    requires Resolves(s, passcode, key.address) && key !in s.net.routes
    ensures var t := RunCommand(env, s, sid, raw, choice);
      && t.clients == s.clients[sid := s.clients[sid].(phase := Binding(Claim(passcode, key.port, sid), key))]
      && t.leases == s.leases && t.tasks == s.tasks && t.bufs == s.bufs
      && t.net.byAddress.Keys == s.net.byAddress.Keys && t.net.byPasscode == s.net.byPasscode
  {
    BindOutcome(s.net, passcode, key.port, sid, s.now);
  }

  lemma PortFinished(env: Env, s: State, sid: SessionId, l: LeaseId)
    requires sid in s.clients && s.clients[sid].phase.Binding? && ClientSound(s.clients[sid])
    ensures var t, c := FinishBind(env, s, sid, l, true), s.clients[sid];
      && (exists d: Client :: t.clients == s.clients[sid := d] && d.phase.Serving? && d.lease == Some(l)
            && d.transport == c.transport && d.inbox == c.inbox && d.taken == c.taken)
      && t.leases == s.leases[l := Lease(sid, Some(c.phase.key))] && l in t.tasks
      && t.tasks == s.tasks[l := t.tasks[l]] && t.net == s.net && t.bufs == s.bufs
  {
    var t := FinishBind(env, s, sid, l, true);
    assert t.clients == s.clients[sid := t.clients[sid]];
  }

  /** With the passcode it then claims a port on that address, and gets it. */
  lemma GetsPort(
    env: Env, s: State, sid: SessionId, transport: Transport, address: Ipv6, passcode: Passcode, l: LeaseId)
    returns (t: State)
    requires Reachable(env, s) && Ready(s, sid, transport) && l !in s.tasks
    requires Resolves(s, passcode, address) && RoutesOn(s.net, address) == {}
    ensures Reachable(env, t) && OthersStay(s, t, sid) && Waiting(t, sid, transport, RouteKey(address, 1))
    ensures NamesWithin(s, t, address, passcode) && t.tasks.Keys == s.tasks.Keys + {l}
  {
    var key := RouteKey(address, 1);
    var u := ClaimsPort(env, s, sid, transport, key, passcode, l);
    KnownOf(env, u, sid, l);
    t := FinishesBind(env, u, sid, l);
    PortFinished(env, u, sid, l);
    BindStays(u, t, sid, l);
    OthersStayTwice(s, u, t, sid);
  }

  /** What is needed of the invariant here. */
  lemma KnownOf(env: Env, s: State, sid: SessionId, l: LeaseId)
    requires Reachable(env, s) && sid in s.clients && l !in s.tasks
    ensures Consistent(s.net) && ClientSound(s.clients[sid]) && l !in s.leases
  {
    ReachableKeeps(env, s);
    FreshLease(s, l);
  }

  lemma BindStays(s: State, t: State, sid: SessionId, l: LeaseId)
    requires sid in s.clients && sid in t.clients && l in t.leases && l in t.tasks && l !in s.leases && l !in s.tasks
    requires t.clients == s.clients[sid := t.clients[sid]] && t.bufs == s.bufs
    requires t.leases == s.leases[l := t.leases[l]] && t.tasks == s.tasks[l := t.tasks[l]]
    ensures OthersStay(s, t, sid)
  {
  }

  lemma CommandStays(s: State, t: State, sid: SessionId)
    requires sid in s.clients && sid in t.clients && t.clients == s.clients[sid := t.clients[sid]]
    requires t.leases == s.leases && t.tasks == s.tasks && t.bufs.Keys <= s.bufs.Keys + {sid}
    requires forall i | i != sid :: BufOf(t, i) == BufOf(s, i)
    ensures OthersStay(s, t, sid)
  {
  }

  lemma FinishesBind(env: Env, s: State, sid: SessionId, l: LeaseId) returns (t: State)
    requires Reachable(env, s) && sid in s.clients && s.clients[sid].phase.Binding? && l !in s.tasks
    ensures t == FinishBind(env, s, sid, l, true) && Reachable(env, t)
  {
    t := Next(env, s, BindDone(sid, l, true));
    ReachableNext(env, s, BindDone(sid, l, true));
  }

  lemma ClaimsPort(
    env: Env, s: State, sid: SessionId, transport: Transport, key: RouteKey, passcode: Passcode, l: LeaseId)
    returns (t: State)
    requires Reachable(env, s) && Ready(s, sid, transport) && l !in s.tasks && key.port == 1
    requires Resolves(s, passcode, key.address) && RoutesOn(s.net, key.address) == {}
    ensures Reachable(env, t) && OthersStay(s, t, sid) && BufOf(t, sid) == []
    ensures t.clients == s.clients[sid := s.clients[sid].(phase := Binding(Claim(passcode, key.port, sid), key))]
    ensures t.leases == s.leases && t.tasks == s.tasks && NamesWithin(s, t, key.address, passcode)
  {
    var raw := BindLine(env, passcode, sid);
    var u := LineArrives(env, s, sid, transport, raw);
    var choice := Choice(key.address, passcode, s.now, l, true);
    assert key !in s.net.routes by {
      assert key !in RoutesOn(s.net, key.address);
    }
    KnownOf(env, s, sid, l);
    t := RunsCommand(env, u, sid, raw, choice);
    PortServed(env, u, sid, raw, choice, passcode, key);
    LineGone(u, sid, raw);
    CommandStays(u, t, sid);
    OthersStayTwice(s, u, t, sid);
  }

  lemma OthersStayTwice(s: State, t: State, u: State, sid: SessionId)
    requires OthersStay(s, t, sid) && OthersStay(t, u, sid)
    ensures OthersStay(s, u, sid)
  {
  }

  /** A new client can always come to hold a port, given a free address and a
      free passcode, without anybody else noticing. */
  lemma NewClientCanBind(
    env: Env, s: State, sid: SessionId, transport: Transport, address: Ipv6, passcode: Passcode, l: LeaseId)
    returns (t: State)
    requires Reachable(env, s) && sid !in s.clients && sid !in s.bufs && l !in s.tasks
    requires IsClientAddress(address) && IsFree(s.net, address, passcode)
    ensures Reachable(env, t) && OthersStay(s, t, sid) && Waiting(t, sid, transport, RouteKey(address, 1))
    ensures NamesWithin(s, t, address, passcode) && t.tasks.Keys == s.tasks.Keys + {l}
  {
    var u := OpensReady(env, s, sid, transport);
    var v := GetsAddress(env, u, sid, transport, address, passcode, l);
    t := GetsPort(env, v, sid, transport, address, passcode, l);
    OthersStayTwice(s, u, v, sid);
    OthersStayTwice(s, v, t, sid);
  }

  // ----- a datagram that is too large -----

  function Repeated(c: char): Passcode
    requires c in PASSCODE_ALPHABET
  {
    seq(PASSCODE_LEN, _ => c)
  }

  lemma InitialReachable(env: Env)
    ensures Reachable(env, INITIAL)
  {
    var none: seq<Step> := [];
    assert IsRun(env, [INITIAL], none) && [INITIAL][|none|] == INITIAL;
  }

  lemma TwoNames() returns (a: Ipv6, b: Ipv6, p: Passcode, q: Passcode)
    ensures IsClientAddress(a) && IsClientAddress(b) && a != b && p != q
  {
    a, b := ClientAddress(256), ClientAddress(257);
    if a == b {
      ClientAddressInjective(256, 257);
    }
    assert PASSCODE_ALPHABET[0] == 'A' && PASSCODE_ALPHABET[1] == 'B';
    p, q := Repeated('A'), Repeated('B');
    assert p[0] != q[0];
  }

  /** Two clients can come to hold ports, one over each transport. */
  lemma TwoCanBind(env: Env) returns (s: State, from: RouteKey, to: RouteKey)
    ensures Reachable(env, s) && Waiting(s, 0, OverWebSocket, from) && Waiting(s, 1, OverWebTransport, to)
  {
    var a, b, p, q := TwoNames();
    from, to := RouteKey(a, 1), RouteKey(b, 1);
    InitialReachable(env);
    var u := NewClientCanBind(env, INITIAL, 0, OverWebSocket, a, p, 0);
    s := NewClientCanBind(env, u, 1, OverWebTransport, b, q, 1);
    WaitingStays(u, s, 0, OverWebSocket, from, 1);
  }

  lemma WaitingStays(s: State, t: State, sid: SessionId, transport: Transport, key: RouteKey, other: SessionId)
    requires Waiting(s, sid, transport, key) && OthersStay(s, t, other) && other != sid
    ensures Waiting(t, sid, transport, key)
  {
  }

  /** There is a run in which the largest frame waits for a WebTransport session
      to read it, and whenever it is read the session ends. */
  lemma OversizeHappens(env: Env) returns (s: State, sid: SessionId)
    ensures Reachable(env, s) && sid in s.clients
    ensures NextMessage(s.clients[sid]).Some? && |NextMessage(s.clients[sid]).value| == 65559
    ensures forall link: Link | link.up && link.room < 0x1_0000 ::
      Enabled(env, s, ReadRelay(sid, link)) && Leaves(Read(s, sid, link), sid)
  {
    var u, from, to := TwoCanBind(env);
    sid := 1;
    s := SendsLargest(env, u, from, to);
    forall link: Link | link.up && link.room < 0x1_0000
      ensures Enabled(env, s, ReadRelay(sid, link)) && Leaves(Read(s, sid, link), sid)
    {
      LargestFrameEndsReceiver(env, s, sid, to, from, link);
    }
  }

  lemma LargestIsInward(from: RouteKey, to: RouteKey)
    requires IsNetworkAddress(to.address)
    ensures var d := Network.DispatchFrame(from, LargestFrame(to)); d.Inward? && d.to == to && |d.wire| == 65559
  {
    Network.DispatchDecides(from, LargestFrame(to));
    DecodedSize(Network.DispatchFrame(from, LargestFrame(to)).wire);
  }

  /** A frame from a WebSocket client for a port that is listened on. */
  lemma HandsOver(s: State, q: SessionId, from: RouteKey, to: RouteKey, r: SessionId, raw: Bytes, wire: Bytes)
    requires BoundTo(s, q, from) && Network.DispatchFrame(from, raw) == Network.Inward(to, wire)
    requires to in s.net.routes && s.net.routes[to] == r && r in s.clients && Listening(s.clients[r])
    ensures HandData(s, q, BinaryMessage, raw)
         == SetClient(s, r, s.clients[r].(inbox := s.clients[r].inbox + [wire]))
  {
  }

  lemma SendsLargest(env: Env, s: State, from: RouteKey, to: RouteKey) returns (t: State)
    requires Reachable(env, s) && Waiting(s, 0, OverWebSocket, from) && Waiting(s, 1, OverWebTransport, to)
    ensures Reachable(env, t) && BoundTo(t, 1, to) && BufOf(t, 1) == []
    ensures t.clients[1].transport == OverWebTransport && IsNetworkAddress(to.address)
    ensures NextMessage(t.clients[1]) == Some(Network.DispatchFrame(from, LargestFrame(to)).wire)
    ensures |NextMessage(t.clients[1]).value| == 65559
  {
    var raw := LargestFrame(to);
    KnownOfBound(env, s, 1, to);
    LargestIsInward(from, to);
    var wire := Network.DispatchFrame(from, raw).wire;
    HandsOver(s, 0, from, to, 1, raw, wire);
    assert [] + [wire] == [wire];
    t := SendsData(env, s, raw);
  }

  lemma SendsData(env: Env, s: State, raw: Bytes) returns (t: State)
    requires Reachable(env, s) && 0 in s.clients && s.clients[0].phase.Serving?
    requires s.clients[0].transport == OverWebSocket
    ensures t == HandData(s, 0, BinaryMessage, raw).(bufs := s.bufs) && Reachable(env, t)
  {
    t := Next(env, s, Data(0, BinaryMessage, raw));
    ReachableNext(env, s, Data(0, BinaryMessage, raw));
  }
}
