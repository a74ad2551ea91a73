/** The one way in which another session, or the open internet, can end a
    session: a datagram that the client's connection has no room for. A frame
    may carry up to 65535 bytes, the datagrams of a WebTransport connection
    usually much less, and a datagram that is too large is an error that ends
    the session. */
module ProxyOversize {
  import opened Wrappers
  import opened BigEndian
  import opened Code
  import opened NetworkState
  import opened Commands
  import opened Session
  import opened Proxy
  import opened ProxyInvariant
  import opened ProxyRuns
  import opened ProxySafety
  import opened ProxyHistory
  import opened ProxyRelays
  import opened ProxyLives
  import Network
  import Packet

  /** A frame is 24 bytes longer than what it carries. */
  function FrameSize(payload: Bytes): nat {
    Packet.HEADER_LEN + |payload|
  }

  lemma DecodedSize(m: Bytes)
    requires Packet.Decode(m).Some?
    ensures |m| == FrameSize(Packet.Decode(m).value.data)
  {
    Packet.CodecBijection(Packet.Decode(m).value, m);
  }

  lemma BoundReadsFrames(env: Env, s: State, sid: SessionId, key: RouteKey)
    requires Reachable(env, s) && BoundTo(s, sid, key) && NextMessage(s.clients[sid]).Some?
    ensures Packet.Decode(NextMessage(s.clients[sid]).value).Some?
    ensures s.clients[sid].relayUdp
  {
    ReachableKeeps(env, s);
    BoundIsServed(env, s, sid, key);
    assert InboxSound(s, sid) && HolderSound(s, sid);
  }

  /** Over a connection that is up, a bound session always reads a whole frame
      and goes on, unless it is a WebTransport session and the payload is larger
      than what is left of the largest datagram behind a frame header. */
  lemma DatagramFate(env: Env, s: State, sid: SessionId, key: RouteKey, link: Link)
    requires Reachable(env, s) && BoundTo(s, sid, key) && NextMessage(s.clients[sid]).Some? && link.up
    ensures Packet.Decode(NextMessage(s.clients[sid]).value).Some?
    ensures var payload := Packet.Decode(NextMessage(s.clients[sid]).value).value.data;
      if s.clients[sid].transport == OverWebTransport && FrameSize(payload) > link.room
      then Leaves(Read(s, sid, link), sid)
      else StaysOn(Read(s, sid, link), sid)
  {
    var m := NextMessage(s.clients[sid]).value;
    BoundReadsFrames(env, s, sid, key);
    DecodedSize(m);
    ReadEnds(env, s, sid, link);
  }

  /** The largest frame a client can send: 65535 bytes for the holder of `to`. */
  function LargestFrame(to: RouteKey): (raw: Bytes)
    ensures Packet.Decode(raw) == Some(Packet.Frame(to.address, to.port, seq(65535, _ => 0)))
  {
    var frame := Packet.Frame(to.address, to.port, seq(65535, _ => 0));
    var raw := Packet.Encode(frame).value;
    assert Packet.Decode(raw) == Some(frame) by {
      Packet.CodecBijection(frame, raw);
    }
    raw
  }

  lemma KnownOfBound(env: Env, s: State, sid: SessionId, key: RouteKey)
    requires Reachable(env, s) && BoundTo(s, sid, key)
    ensures key in s.net.routes && s.net.routes[key] == sid && IsNetworkAddress(key.address)
  {
    ReachableKeeps(env, s);
    BoundIsServed(env, s, sid, key);
  }

  /** It is delivered like any other, and no connection that a UDP datagram
      bounds has room for it: a WebTransport session that reads it ends, a
      WebSocket session does not. */
  lemma LargestFrameEndsReceiver(
    env: Env, s: State, sid: SessionId, key: RouteKey, from: RouteKey, link: Link)
    requires Reachable(env, s) && BoundTo(s, sid, key) && link.up && link.room < 0x1_0000
    ensures var d := Network.DispatchFrame(from, LargestFrame(key));
      && d.Inward? && d.to == key && |d.wire| == 65559
      && (NextMessage(s.clients[sid]) == Some(d.wire) ==>
            if s.clients[sid].transport == OverWebTransport
            then Leaves(Read(s, sid, link), sid)
            else StaysOn(Read(s, sid, link), sid))
  {
    KnownOfBound(env, s, sid, key);
    Network.DispatchDecides(from, LargestFrame(key));
    var wire := Network.DispatchFrame(from, LargestFrame(key)).wire;
    DecodedSize(wire);
    if NextMessage(s.clients[sid]) == Some(wire) {
      DatagramFate(env, s, sid, key, link);
    }
  }

  /** The step sends `sid` a payload for which there is no room: a frame for the
      port that it holds at that moment, or a datagram that a socket of its own
      translation task has received. */
  ghost predicate SendsOversize(s: State, step: Step, sid: SessionId, room: nat) {
    match step
    case Data(_, _, raw) =>
      && (exists m :: DatagramFor(s, step, sid, m))
      && Packet.Decode(raw).Some? && FrameSize(Packet.Decode(raw).value.data) > room
    case TranslateTurn(l, Incoming(_, Some(datagram))) => TaskOf(s, l, sid) && FrameSize(datagram.1) > room
    case _ => false
  }

  ghost predicate OversizeSentAt(trace: seq<State>, steps: seq<Step>, i: nat, sid: SessionId, room: nat) {
    i < |steps| && i < |trace| && SendsOversize(trace[i], steps[i], sid, room)
  }

  /** A frame on a relay is as large as what was sent or received. */
  lemma OriginSize(s: State, step: Step, r: SessionId, m: Bytes, room: nat)
    requires Origin(s, step, r, m) && Packet.Decode(m).Some? && |m| > room
    requires step.Data? || step.TranslateTurn?
    ensures SendsOversize(s, step, r, room)
  {
    DecodedSize(m);
    if step.Data? {
      var key, to :| BoundTo(s, step.sid, key) && Network.DispatchFrame(key, step.raw) == Network.Inward(to, m);
      Network.DispatchDecides(key, step.raw);
    } else {
      assert [m][0] == m;
    }
  }

  ghost predicate ServiceTurn(step: Step) {
    step.ConnectTurn? || step.ResolveTurn? || step.TaskExit?
  }

  lemma ServiceTurnIsNoTranslation(env: Env, s: State, step: Step)
    requires Inv(env, s) && Enabled(env, s, step) && ServiceTurn(step)
    ensures step.task in s.tasks && !s.tasks[step.task].job.Translating?
  {
    assert TaskSound(s, step.task);
  }

  lemma BoundTaskTranslates(env: Env, s: State, r: SessionId, key: RouteKey, l: LeaseId)
    requires Inv(env, s) && BoundTo(s, r, key) && l in s.tasks && s.tasks[l].relay == r
    ensures s.tasks[l].job.Translating?
  {
    BoundIsServed(env, s, r, key);
    assert TaskSound(s, l);
  }

  /** A frame on the relay of a bound session comes from a client or from the
      open internet, never from a service's task. */
  lemma FrameOrigin(
    env: Env, trace: seq<State>, steps: seq<Step>, i: nat, n: nat, r: SessionId, key: RouteKey, m: Bytes)
    requires IsRun(env, trace, steps) && i <= n < |trace| && i < |steps|
    requires BoundTo(trace[n], r, key) && Origin(trace[i], steps[i], r, m)
    ensures steps[i].Data? || steps[i].TranslateTurn?
  {
    if ServiceTurn(steps[i]) {
      RunKeeps(env, trace, steps, i);
      RunKeeps(env, trace, steps, n);
      assert StepAt(env, trace, steps, i);
      ServiceTurnIsNoTranslation(env, trace[i], steps[i]);
      TaskStaysKind(env, trace, steps, i, n, steps[i].task);
      BoundTaskTranslates(env, trace[n], r, key, steps[i].task);
    }
  }

  /** Over a whole run, a bound session whose connection is up leaves over a
      message only if it is a WebTransport session and a client that addressed
      it, or a peer on the open internet that its own task heard, has sent it a
      payload that makes a frame larger than its connection has room for. Senders
      that keep to a payload of 24 bytes less than that can end nobody's session. */
  lemma OnlyOversizeEndsReceiver(
    env: Env, trace: seq<State>, steps: seq<Step>, n: nat, sid: SessionId, key: RouteKey, link: Link)
    requires IsRun(env, trace, steps) && n < |steps| && steps[n] == ReadRelay(sid, link) && link.up
    requires BoundTo(trace[n], sid, key) && Leaves(trace[n + 1], sid)
    ensures trace[n].clients[sid].transport == OverWebTransport
    ensures exists i: nat :: i < n && OversizeSentAt(trace, steps, i, sid, link.room)
  {
    assert StepAt(env, trace, steps, n);
    ReachedByRun(env, trace, steps, n);
    BoundStaysOpen(env, trace[n], sid, key);
    var c := trace[n].clients[sid];
    DatagramFate(env, trace[n], sid, key, link);
    DecodedSize(NextMessage(c).value);
    Provenance(env, trace, steps, n, sid, c.taken);
    var i: nat :| i < n && PutBy(trace, steps, i, sid, c.taken, NextMessage(c).value);
    FrameOrigin(env, trace, steps, i, n, sid, key, NextMessage(c).value);
    OriginSize(trace[i], steps[i], sid, NextMessage(c).value, link.room);
    assert OversizeSentAt(trace, steps, i, sid, link.room);
  }

  lemma BoundStaysOpen(env: Env, s: State, sid: SessionId, key: RouteKey)
    requires Reachable(env, s) && BoundTo(s, sid, key)
    ensures !RelayClosed(s, sid)
  {
    ReachableKeeps(env, s);
    BoundIsServed(env, s, sid, key);
  }
}
