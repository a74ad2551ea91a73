/** The translation task of one bound port (`translate` and `relay_reply` in
    src/service/net/network.rs): datagrams to and from the open internet. */
module Translate {
  import opened Wrappers
  import opened BigEndian
  import opened Code
  import Packet

  type SocketId = nat

  /** The sockets opened so far, one per family at most, and what has gone out
      through them. */
  datatype Translator = Translator(
    v4: Option<SocketId>, v6: Option<SocketId>, running: bool, wire: seq<(SocketId, SocketAddr, Bytes)>)

  const NEW_TRANSLATOR: Translator := Translator(None, None, true, [])

  /** What the task can wake up to. A socket is opened for the first datagram
      of a family, if the system lets it; sending on one may fail. */
  datatype Event =
    | Outgoing(peer: SocketAddr, data: Bytes, opens: Option<SocketId>, sends: bool)
    | LeaseDropped
    | Incoming(v6: bool, received: Option<(SocketAddr, Bytes)>)

  /** What becomes of a datagram from outside: whether the task goes on, and the
      frame it sends on the relay. */
  function RelayReply(received: Option<(SocketAddr, Bytes)>, relayOpen: bool): (bool, seq<Bytes>) {
    match received
    case None => (true, [])
    case Some(datagram) =>
      match Packet.Encode(Packet.ToPeer(datagram.0, datagram.1))
      case None => (true, [])
      case Some(frame) => (relayOpen, if relayOpen then [frame] else [])
  }

  function SocketFor(t: Translator, peer: SocketAddr): Option<SocketId> {
    if peer.ip.V4? then t.v4 else t.v6
  }

  function Step(t: Translator, e: Event, relayOpen: bool): (Translator, seq<Bytes>) {
    if !t.running then (t, [])
    else
      match e
      case LeaseDropped => (t.(running := false), [])
      case Outgoing(peer, data, opens, sends) =>
        var ready := if SocketFor(t, peer).Some? then t
                     else if peer.ip.V4? then t.(v4 := opens) else t.(v6 := opens);
        (match SocketFor(ready, peer)
         case None => ready
         case Some(socket) => if sends then ready.(wire := ready.wire + [(socket, peer, data)]) else ready,
         [])
      case Incoming(v6, received) =>
        if (if v6 then t.v6 else t.v4).None? then (t, [])
        else
          var reply := RelayReply(received, relayOpen);
          (t.(running := reply.0), reply.1)
  }

  /** A datagram that fits the receive buffer always becomes a frame, and the
      frame decodes to the peer it came from and its payload. The task stops
      over it exactly when the session no longer reads its relay. */
  lemma RelayReplyFrames(peer: SocketAddr, data: Bytes, relayOpen: bool)
    requires |data| <= 4096
    ensures var (goesOn, sent) := RelayReply(Some((peer, data)), relayOpen);
      && goesOn == relayOpen
      && (relayOpen ==>
            && |sent| == 1 && |sent[0]| >= 24
            && Packet.Decode(sent[0]) == Some(Packet.ToPeer(peer, data)))
      && (!relayOpen ==> sent == [])
  {
    var frame := Packet.ToPeer(peer, data);
    Packet.CodecBijection(frame, Packet.Encode(frame).value);
  }

  /** Whatever the task relays is a whole frame. */
  lemma RelayedAreFrames(t: Translator, e: Event, relayOpen: bool)
    ensures forall m | m in Step(t, e, relayOpen).1 :: |m| >= 24 && Packet.Decode(m).Some?
    ensures !relayOpen ==> Step(t, e, relayOpen).1 == []
  {
    if e.Incoming? && e.received.Some? {
      var frame := Packet.ToPeer(e.received.value.0, e.received.value.1);
      Packet.CodecBijection(frame, []);
    }
  }

  /** The datagram that a turn takes in for its client: one that an open socket
      has received, while the session reads its relay. */
  function TakenIn(t: Translator, e: Event, relayOpen: bool): seq<(SocketAddr, Bytes)> {
    match e
    case Incoming(v6, Some(datagram)) =>
      if t.running && relayOpen && (if v6 then t.v6 else t.v4).Some? then [datagram] else []
    case _ => []
  }

  /** Datagrams no larger than the receive buffer. */
  ghost predicate Fits(e: Event) {
    e.Incoming? && e.received.Some? ==> |e.received.value.1| <= 4096
  }

  /** Frame for frame the datagrams, each with its peer and its payload. */
  ghost predicate FramesOf(frames: seq<Bytes>, datagrams: seq<(SocketAddr, Bytes)>) {
    && |frames| == |datagrams|
    && forall i | 0 <= i < |frames| ::
         Packet.Decode(frames[i]) == Some(Packet.ToPeer(datagrams[i].0, datagrams[i].1))
  }

  lemma FramesOfBoth(a: seq<Bytes>, b: seq<(SocketAddr, Bytes)>, c: seq<Bytes>, d: seq<(SocketAddr, Bytes)>)
    requires FramesOf(a, b) && FramesOf(c, d)
    ensures FramesOf(a + c, b + d)
  {
  }

  lemma StepFrames(t: Translator, e: Event, relayOpen: bool)
    requires Fits(e)
    ensures FramesOf(Step(t, e, relayOpen).1, TakenIn(t, e, relayOpen))
  {
    if e.Incoming? && e.received.Some? {
      RelayReplyFrames(e.received.value.0, e.received.value.1, relayOpen);
    }
  }

  function Run(events: seq<(Event, bool)>): Translator {
    if events == [] then NEW_TRANSLATOR
    else
      var last := events[|events| - 1];
      Step(Run(events[..|events| - 1]), last.0, last.1).0
  }

  /** Everything a run of the task has sent on the relay. */
  function Relayed(events: seq<(Event, bool)>): seq<Bytes> {
    if events == [] then []
    else
      var before, last := events[..|events| - 1], events[|events| - 1];
      Relayed(before) + Step(Run(before), last.0, last.1).1
  }

  function Received(events: seq<(Event, bool)>): seq<(SocketAddr, Bytes)> {
    if events == [] then []
    else
      var before, last := events[..|events| - 1], events[|events| - 1];
      Received(before) + TakenIn(Run(before), last.0, last.1)
  }

  /** Frame for frame with its peer and payload, in order. */
  lemma {:induction false} RelayedIsReceived(events: seq<(Event, bool)>)
    requires forall i | 0 <= i < |events| :: Fits(events[i].0)
    ensures FramesOf(Relayed(events), Received(events))
  {
    if events != [] {
      var before, last := events[..|events| - 1], events[|events| - 1];
      RelayedIsReceived(before);
      StepFrames(Run(before), last.0, last.1);
    }
  }

  /** Everything sent to a family went out of the socket held for it. */
  ghost predicate WireUsesSockets(t: Translator) {
    forall i | 0 <= i < |t.wire| :: SocketFor(t, t.wire[i].1) == Some(t.wire[i].0)
  }

  lemma StepUsesSockets(t: Translator, e: Event, relayOpen: bool)
    requires WireUsesSockets(t)
    ensures WireUsesSockets(Step(t, e, relayOpen).0)
  {
    var t' := Step(t, e, relayOpen).0;
    forall i | 0 <= i < |t'.wire| ensures SocketFor(t', t'.wire[i].1) == Some(t'.wire[i].0) {
      if i < |t.wire| {
        assert SocketFor(t, t.wire[i].1) == Some(t.wire[i].0);
      }
    }
  }

  lemma {:induction false} RunUsesSockets(events: seq<(Event, bool)>)
    ensures WireUsesSockets(Run(events))
  {
    if events != [] {
      var last := events[|events| - 1];
      RunUsesSockets(events[..|events| - 1]);
      StepUsesSockets(Run(events[..|events| - 1]), last.0, last.1);
    }
  }

  /** Whoever a client talks to sees the same source port: over a whole run, all
      datagrams to one family leave through one socket. */
  lemma OneSocketPerFamily(events: seq<(Event, bool)>, i: nat, j: nat)
    requires i < |Run(events).wire| && j < |Run(events).wire|
    requires Run(events).wire[i].1.ip.V4? == Run(events).wire[j].1.ip.V4?
    ensures Run(events).wire[i].0 == Run(events).wire[j].0
  {
    RunUsesSockets(events);
  }

  // ----- the whole task from its events alone -----

  /** The socket of a family: the first one that a datagram to it has opened. */
  function Opened(v4: bool, events: seq<(Event, bool)>): Option<SocketId>
    decreases |events|
  {
    if events == [] then None
    else
      var before, e := events[..|events| - 1], events[|events| - 1].0;
      if Opened(v4, before).Some? then Opened(v4, before)
      else if Alive(before) && e.Outgoing? && e.peer.ip.V4? == v4 then e.opens
      else None
  }

  /** The task runs until its lease has been dropped or an answer from outside
      that would make a frame finds its session gone. */
  predicate Alive(events: seq<(Event, bool)>)
    decreases |events|
  {
    events == [] ||
    var before, (e, relayOpen) := events[..|events| - 1], events[|events| - 1];
    Alive(before) &&
    match e
    case LeaseDropped => false
    case Outgoing(_, _, _, _) => true
    case Incoming(_, None) => true
    case Incoming(v6, Some(datagram)) => relayOpen || Opened(!v6, before).None? || |datagram.1| > 65535
  }

  /** All that goes out: each datagram handed over while the task runs, through
      the socket of its family, unless there is none or the system refuses. */
  function SentOut(events: seq<(Event, bool)>): seq<(SocketId, SocketAddr, Bytes)> {
    if events == [] then []
    else
      var before, e := events[..|events| - 1], events[|events| - 1].0;
      SentOut(before) +
      if Alive(before) && e.Outgoing? && e.sends && Opened(e.peer.ip.V4?, events).Some?
      then [(Opened(e.peer.ip.V4?, events).value, e.peer, e.data)] else []
  }

  /** All that comes in for the client: each datagram that the socket of its
      family receives while the task runs and the session reads its relay. */
  function CameIn(events: seq<(Event, bool)>): seq<(SocketAddr, Bytes)> {
    if events == [] then []
    else
      var before, (e, relayOpen) := events[..|events| - 1], events[|events| - 1];
      CameIn(before) +
      match e
      case Incoming(v6, Some(datagram)) =>
        if Alive(before) && relayOpen && Opened(!v6, before).Some? then [datagram] else []
      case _ => []
  }

  lemma FrameFits(peer: SocketAddr, data: Bytes)
    ensures Packet.Encode(Packet.ToPeer(peer, data)).Some? <==> |data| <= 65535
  {
    Packet.CodecBijection(Packet.ToPeer(peer, data), []);
  }

  /** Where the task stands and what it has sent out is what its events say:
      nothing goes out but what the lease handed over, to the peer it was meant
      for, unchanged, once and in order; and nothing stays in but what could
      not be sent. */
  lemma {:induction false} RunIsExact(events: seq<(Event, bool)>)
    ensures Run(events) == Translator(Opened(true, events), Opened(false, events), Alive(events), SentOut(events))
  {
    if events != [] {
      var before, e := events[..|events| - 1], events[|events| - 1].0;
      RunIsExact(before);
      assert SentOut(before) + [] == SentOut(before);
      if e.Incoming? && e.received.Some? {
        FrameFits(e.received.value.0, e.received.value.1);
      }
    }
  }

  /** Over a whole run the task relays exactly the datagrams that its sockets
      have received while the session reads its relay, each as one frame with
      its peer and payload, in order. */
  lemma RelayedIsExact(events: seq<(Event, bool)>)
    requires forall i | 0 <= i < |events| :: Fits(events[i].0)
    ensures FramesOf(Relayed(events), CameIn(events))
  {
    RelayedIsReceived(events);
    ReceivedIsExact(events);
  }

  lemma {:induction false} ReceivedIsExact(events: seq<(Event, bool)>)
    ensures Received(events) == CameIn(events)
  {
    if events != [] {
      var before := events[..|events| - 1];
      RunIsExact(before);
      ReceivedIsExact(before);
    }
  }

  /** The task with its own variables. */
  class TranslateTask {
    var v4: Option<SocketId>
    var v6: Option<SocketId>
    var running: bool
    var wire: seq<(SocketId, SocketAddr, Bytes)>
    var relayed: seq<Bytes>

    function State(): Translator
      reads this
    {
      Translator(v4, v6, running, wire)
    }

    constructor ()
      ensures State() == NEW_TRANSLATOR && relayed == []
    {
      v4, v6, running, wire, relayed := None, None, true, [], [];
    }

    method Turn(e: Event, relayOpen: bool)
      modifies this
      ensures var (t, sent) := Step(old(State()), e, relayOpen);
        State() == t && relayed == old(relayed) + sent
    {
      if !running {
        return;
      }
      match e
      case LeaseDropped =>
        running := false;
      case Outgoing(peer, data, opens, sends) =>
        var socket := if peer.ip.V4? then v4 else v6;
        if socket.None? {
          socket := opens;
          if peer.ip.V4? {
            v4 := socket;
          } else {
            v6 := socket;
          }
        }
        if socket.Some? && sends {
          wire := wire + [(socket.value, peer, data)];
        }
      case Incoming(fromV6, received) =>
        if (if fromV6 then v6 else v4).Some? {
          var (goesOn, sent) := RelayReply(received, relayOpen);
          relayed := relayed + sent;
          running := goesOn;
        }
    }

    method RunLoop(events: seq<(Event, bool)>)
      requires State() == NEW_TRANSLATOR && relayed == []
      modifies this
      ensures State() == Run(events) && relayed == Relayed(events)
      ensures wire == SentOut(events) && running == Alive(events)
    {
      for i := 0 to |events|
        invariant State() == Run(events[..i]) && relayed == Relayed(events[..i])
      {
        assert events[..i + 1][..i] == events[..i];
        Turn(events[i].0, events[i].1);
      }
      assert events[..|events|] == events;
      RunIsExact(events);
    }
  }
}
