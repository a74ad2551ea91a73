/** The private network as the proxy runs it (src/service/net/network.rs):
    tables changed in place, one locked section to a method, and the handler
    that a bound lease sends through. */
module Network {
  import opened Wrappers
  import opened BigEndian
  import opened Code
  import Packet
  import opened Channels
  import opened NetworkState

  /** Where `BindHandler::send` takes a datagram. */
  datatype Dispatch =
    | BadFrame
    | Oversize
    | Inward(to: RouteKey, wire: Bytes)
    | Outward(peer: SocketAddr, data: Bytes)

  function DispatchFrame(from: RouteKey, raw: Bytes): Dispatch {
    match Packet.Decode(raw)
    case None => BadFrame
    case Some(frame) =>
      var peer := Packet.Peer(frame);
      if peer.ip.V6? && IsNetworkAddress(peer.ip.v6) then
        match Packet.Encode(Packet.Frame(from.address, from.port, frame.data))
        case None => Oversize
        case Some(wire) => Inward(RouteKey(peer.ip.v6, peer.port), wire)
      else
        Outward(peer, frame.data)
  }

  /** A datagram that decodes goes exactly one way, chosen by the address in
      its frame alone; it is never too large to be encoded again; and one that
      stays inside decodes to the sender's own key and the same payload. */
  lemma DispatchDecides(from: RouteKey, raw: Bytes)
    ensures DispatchFrame(from, raw) != Oversize
    ensures DispatchFrame(from, raw).BadFrame? <==> Packet.Decode(raw) == None
    ensures Packet.Decode(raw).Some? ==>
      var f := Packet.Decode(raw).value;
      var d := DispatchFrame(from, raw);
      if IsNetworkAddress(f.peerIp) then
        && d.Inward? && d.to == RouteKey(f.peerIp, f.peerPort)
        && Packet.Decode(d.wire) == Some(Packet.Frame(from.address, from.port, f.data))
      else
        d == Outward(Packet.Peer(f), f.data)
  {
    if Packet.Decode(raw).Some? {
      var f := Packet.Decode(raw).value;
      Packet.DecodedFits(raw, from.address, from.port);
      Packet.UnmappingKeepsNetworkAddresses(f);
      var inner := Packet.Frame(from.address, from.port, f.data);
      Packet.CodecBijection(inner, Packet.Encode(inner).value);
    }
  }

  /** Reusing the address of a delivered frame as a destination reaches the
      key that sent it. */
  lemma ReplyComesBack(from: RouteKey, to: RouteKey, raw: Bytes, reply: Bytes)
    requires IsNetworkAddress(from.address)
    requires DispatchFrame(from, raw).Inward? && Packet.Decode(reply).Some?
    requires Packet.Peer(Packet.Decode(reply).value)
          == Packet.Peer(Packet.Decode(DispatchFrame(from, raw).wire).value)
    ensures DispatchFrame(to, reply).Inward?
    ensures DispatchFrame(to, reply).to == from
    ensures Packet.Decode(DispatchFrame(to, reply).wire)
         == Some(Packet.Frame(to.address, to.port, Packet.Decode(reply).value.data))
  {
    DispatchDecides(from, raw);
    DispatchDecides(to, reply);
    Packet.UnmappingKeepsNetworkAddresses(Packet.Decode(DispatchFrame(from, raw).wire).value);
    Packet.UnmappingKeepsNetworkAddresses(Packet.Decode(reply).value);
  }

  /** A frame with the address of a peer outside the private network, as that
      peer's own datagrams carry it, leaves for the open internet. */
  lemma OutsideStaysOutside(bound: RouteKey, peer: SocketAddr, data: Bytes, answer: Bytes)
    requires |answer| <= 65535 && !(peer.ip.V6? && IsNetworkAddress(peer.ip.v6))
    ensures var frame := Packet.Frame(Packet.ToPeer(peer, data).peerIp, peer.port, answer);
      && Packet.Encode(frame).Some?
      && DispatchFrame(bound, Packet.Encode(frame).value)
         == Outward(Packet.Peer(Packet.ToPeer(peer, data)), answer)
  {
    var frame := Packet.Frame(Packet.ToPeer(peer, data).peerIp, peer.port, answer);
    Packet.CodecBijection(frame, Packet.Encode(frame).value);
    Packet.UnmappingKeepsNetworkAddresses(frame);
    DispatchDecides(bound, Packet.Encode(frame).value);
  }

  class Network {
    var byAddress: map<Ipv6, Assignment>
    var byPasscode: map<Passcode, Ipv6>
    var routes: map<RouteKey, Channel<Bytes>>

    function State(): NetState<Channel<Bytes>>
      reads this
    {
      NetState(byAddress, byPasscode, routes)
    }

    constructor ()
      ensures State() == NetState(map[], map[], map[]) && Consistent(State())
    {
      byAddress, byPasscode, routes := map[], map[], map[];
    }

    /** The stale assignments, each with its passcode, in no particular order. */
    method CollectStale(now: nat) returns (stale: seq<(Ipv6, Passcode)>)
      ensures forall i | 0 <= i < |stale| ::
        stale[i].0 in Stale(State(), now) && stale[i].1 == byAddress[stale[i].0].passcode
      ensures forall a | a in Stale(State(), now) :: exists i | 0 <= i < |stale| :: stale[i].0 == a
    {
      stale := [];
      var unseen := byAddress.Keys;
      ghost var seen: set<Ipv6> := {};
      while unseen != {}
        invariant unseen + seen == byAddress.Keys
        invariant forall i | 0 <= i < |stale| ::
          stale[i].0 in Stale(State(), now) && stale[i].1 == byAddress[stale[i].0].passcode
        invariant forall a | a in seen && IsStale(byAddress[a], now) ::
          exists i | 0 <= i < |stale| :: stale[i].0 == a
        decreases |unseen|
      {
        var address :| address in unseen;
        var a := byAddress[address];
        if a.binds == 0 && Elapsed(now, a.touched) >= ASSIGNMENT_TTL {
          ghost var before := stale;
          stale := stale + [(address, a.passcode)];
          assert stale[|before|].0 == address;
          assert forall i | 0 <= i < |before| :: stale[i] == before[i];
        }
        unseen, seen := unseen - {address}, seen + {address};
      }
    }

    method Expire(now: nat)
      modifies this`byAddress, this`byPasscode
      ensures State() == Expired(old(State()), now)
    {
      var stale := CollectStale(now);
      ghost var s := State();
      for n := 0 to |stale|
        invariant routes == s.routes
        invariant byAddress == s.byAddress - set i | 0 <= i < n :: stale[i].0
        invariant byPasscode == s.byPasscode - set i | 0 <= i < n :: stale[i].1
      {
        byAddress := byAddress - {stale[n].0};
        byPasscode := byPasscode - {stale[n].1};
      }
      assert (set i | 0 <= i < |stale| :: stale[i].0) == Stale(s, now);
      assert (set i | 0 <= i < |stale| :: stale[i].1) == set a | a in Stale(s, now) :: s.byAddress[a].passcode;
    }

    /** Draws until an address and a passcode are both unused. */
    method DrawFree(rng: Rng) returns (address: Option<Ipv6>, passcode: Option<Passcode>)
      modifies rng
      ensures var addresses, passcodes := Addresses(old(rng.words)), Passcodes(old(rng.codes));
        match FirstFree(State(), addresses, passcodes, 0)
        case None => passcode == None
        case Some(i) =>
          && i < |addresses| && address == Some(addresses[i])
          && i < |passcodes| && passcode == Some(passcodes[i])
    {
      ghost var s, addresses, passcodes := State(), Addresses(rng.words), Passcodes(rng.codes);
      ghost var n := 0;
      while true
        invariant n <= |addresses| && n <= |passcodes|
        invariant Addresses(rng.words) == addresses[n..] && Passcodes(rng.codes) == passcodes[n..]
        invariant FirstFree(s, addresses, passcodes, 0) == FirstFree(s, addresses, passcodes, n)
        decreases |rng.codes|
      {
        address := rng.RandomAddress();
        if address == None {
          return None, None;
        }
        passcode := rng.RandomPasscode();
        if passcode == None {
          return None, None;
        }
        if address.value !in byAddress && passcode.value !in byPasscode {
          return;
        }
        n := n + 1;
      }
    }

    /** Hands out a fresh address and its passcode; none while the draws have
        not come up with a free pair. The clock reads `now` for expiry and
        `later` for the new entry. */
    method Assign(rng: Rng, now: nat, later: nat) returns (address: Option<Ipv6>, passcode: Option<Passcode>)
      modifies this`byAddress, this`byPasscode, rng
      ensures var s := Expired(old(State()), now);
        var addresses, passcodes := Addresses(old(rng.words)), Passcodes(old(rng.codes));
        match FirstFree(s, addresses, passcodes, 0)
        case None => passcode == None && State() == s
        case Some(i) =>
          && i < |addresses| && address == Some(addresses[i])
          && i < |passcodes| && passcode == Some(passcodes[i])
          && State() == Issued(s, addresses[i], passcodes[i], later)
    {
      Expire(now);
      address, passcode := DrawFree(rng);
      if passcode.Some? {
        byAddress := byAddress[address.value := Assignment(passcode.value, 0, later)];
        byPasscode := byPasscode[passcode.value := address.value];
      }
    }

    /** The locked section of `bind`. */
    method BindPort(passcode: Passcode, port: u16, relay: Channel<Bytes>, now: nat)
      returns (r: Result<RouteKey, BindError>)
      modifies this`byAddress, this`routes
      ensures match Bind(old(State()), passcode, port, relay, now)
        case Err(e) => r == Err(e) && State() == old(State())
        case Ok((s, key)) => r == Ok(key) && State() == s
    {
      if port == 0 {
        return Err(PortZero);
      }
      if passcode !in byPasscode {
        return Err(UnknownPasscode);
      }
      var address := byPasscode[passcode];
      var key := RouteKey(address, port);
      if key in routes {
        return Err(AlreadyBound);
      }
      if address !in byAddress {
        return Err(AssignmentMissing);
      }
      var assignment := byAddress[address];
      assignment := assignment.(binds := assignment.binds + 1);
      assignment := assignment.(touched := now);
      byAddress := byAddress[address := assignment];
      routes := routes[key := relay];
      return Ok(key);
    }

    method UnbindPort(key: RouteKey, now: nat)
      modifies this`byAddress, this`routes
      ensures State() == Unbind(old(State()), key, now)
    {
      if key !in routes {
        return;
      }
      routes := routes - {key};
      if key.address in byAddress {
        var assignment := byAddress[key.address];
        assignment := assignment.(binds := if assignment.binds > 0 then assignment.binds - 1 else 0);
        assignment := assignment.(touched := now);
        byAddress := byAddress[key.address := assignment];
      }
    }

    /** Queues one datagram on the relay bound to `to`, if there is one; a
        relay that has gone away is not an error. */
    method Deliver(from: RouteKey, to: RouteKey, data: Bytes) returns (ok: bool)
      modifies if to in routes then {routes[to]} else {}
      ensures ok == (|data| <= 65535)
      ensures to in routes ==>
        && routes[to].open == old(routes[to].open)
        && routes[to].queue == old(routes[to].queue)
             + if ok && routes[to].open
               then [Packet.Encode(Packet.Frame(from.address, from.port, data)).value] else []
    {
      var out := Packet.EncodeFrame(Packet.Frame(from.address, from.port, data));
      if out == None {
        return false;
      }
      if to in routes {
        var _ := routes[to].Send(out.value);
      }
      return true;
    }
  }

  /** An active claim on one port. */
  class BindHandler {
    const network: Network
    const key: RouteKey
    const egress: Channel<(SocketAddr, Bytes)>

    constructor (network: Network, key: RouteKey, egress: Channel<(SocketAddr, Bytes)>)
      ensures this.network == network && this.key == key && this.egress == egress
    {
      this.network, this.key, this.egress := network, key, egress;
    }

    /** Takes one datagram where `DispatchFrame` says and touches no other
        channel. It fails exactly for a frame that does not decode, and for an
        outward one when the translation task is gone. */
    method Send(raw: Bytes) returns (ok: bool)
      requires forall k | k in network.routes :: network.routes[k] as object != egress
      modifies egress, match DispatchFrame(key, raw)
                       case Inward(to, _) => if to in network.routes then {network.routes[to]} else {}
                       case _ => {}
      ensures egress.open == old(egress.open)
      ensures match DispatchFrame(key, raw)
        case BadFrame => !ok && egress.queue == old(egress.queue)
        case Oversize => false
        case Inward(to, wire) =>
          && ok && egress.queue == old(egress.queue)
          && (to in network.routes ==>
                network.routes[to].queue == old(network.routes[to].queue)
                  + if old(network.routes[to].open) then [wire] else [])
        case Outward(peer, data) =>
          && ok == egress.open
          && egress.queue == old(egress.queue) + if ok then [(peer, data)] else []
    {
      DispatchDecides(key, raw);
      var frame := Packet.DecodeFrame(raw);
      if frame == None {
        return false;
      }
      var peer := Packet.Peer(frame.value);
      if peer.ip.V6? {
        if IsNetworkAddress(peer.ip.v6) {
          ok := network.Deliver(key, RouteKey(peer.ip.v6, peer.port), frame.value.data);
          return;
        }
      }
      ok := egress.Send((peer, frame.value.data));
    }

    /** Run once, when the lease is dropped. */
    method Close(now: nat)
      modifies network`byAddress, network`routes
      ensures network.State() == Unbind(old(network.State()), key, now)
    {
      network.UnbindPort(key, now);
    }
  }
}
