/** Where the messages on a relay come from, and that answers find their way
    back, over whole runs of the proxy. */
module ProxyRelays {
  import opened Wrappers
  import opened BigEndian
  import opened Code
  import opened NetworkState
  import opened Commands
  import opened Proxy
  import opened ProxyInvariant
  import opened ProxyRuns
  import opened ProxySafety
  import opened ProxyHistory
  import ConnectProxy
  import DnsProxy
  import Network
  import Packet
  import Translate

  ghost predicate TaskOf(s: State, l: LeaseId, r: SessionId) {
    l in s.tasks && s.tasks[l].relay == r
  }

  /** The step is a frame from the holder of some port to the port that `r`
      holds at that moment, and arrives as `m`. */
  ghost predicate DatagramFor(s: State, step: Step, r: SessionId, m: Bytes) {
    step.Data? && exists key, to ::
      && BoundTo(s, step.sid, key) && Network.DispatchFrame(key, step.raw) == Network.Inward(to, m)
      && Receives(s, r, to)
  }

  /** A step that puts `m` on the relay of `r`: a frame sent to its port, or a
      turn of the task behind its lease: a datagram that a socket of the
      translation task has received, framed with its peer; the success reply or
      the remote end's data; the answer to the next query; or the wake-up of a
      task that has failed. */
  ghost predicate Origin(s: State, step: Step, r: SessionId, m: Bytes) {
    match step
    case Data(_, _, _) => DatagramFor(s, step, r, m)
    case TranslateTurn(l, e) =>
      && TaskOf(s, l, r) && s.tasks[l].job.Translating?
      && Translate.FramesOf([m], Translate.TakenIn(s.tasks[l].job.t, e, true))
    case ConnectTurn(l, e) =>
      TaskOf(s, l, r) && if e.Chunk? then m == ConnectProxy.SUCCESS_REPLY else e == ConnectProxy.RemoteData(m)
    case ResolveTurn(l, found) =>
      && TaskOf(s, l, r) && s.tasks[l].job.Resolving? && |s.tasks[l].job.answered| < |s.tasks[l].job.asked|
      && m == DnsProxy.Answer(s.tasks[l].job.asked[|s.tasks[l].job.answered|], found)
    case TaskExit(l) => TaskOf(s, l, r) && m == []
    case _ => false
  }

  ghost predicate PutsAtMostOne(s: State, step: Step, t: State, r: SessionId) {
    || Inbox(t, r) == Inbox(s, r)
    || (exists m :: Inbox(t, r) == Inbox(s, r) + [m] && Origin(s, step, r, m))
  }

  lemma BoundDataInbox(env: Env, s: State, q: SessionId, via: Via, raw: Bytes, r: SessionId, key: RouteKey)
    requires TokensSound(s) && BoundTo(s, q, key) && r in s.clients
    ensures var sent := Send(s, s.clients[q].lease.value, raw);
      sent.Some? ==> PutsAtMostOne(s, Data(q, via, raw), sent.value, r)
  {
    var d := Network.DispatchFrame(key, raw);
    if d.Inward? {
      DeliveredReaches(s, d.to, d.wire, r);
      assert Send(s, s.clients[q].lease.value, raw) == Some(Delivered(s, d.to, d.wire));
    }
  }

  lemma DataInbox(env: Env, s: State, q: SessionId, via: Via, raw: Bytes, r: SessionId)
    requires TokensSound(s) && Enabled(env, s, Data(q, via, raw)) && r in s.clients
    ensures PutsAtMostOne(s, Data(q, via, raw), HandData(s, q, via, raw), r)
  {
    var lease := s.clients[q].lease;
    if lease.Some? && lease.value in s.leases && lease.value in s.tasks && s.leases[lease.value].key.Some? {
      BoundDataInbox(env, s, q, via, raw, r, s.leases[lease.value].key.value);
    }
  }

  lemma TranslateInboxes(env: Env, s: State, l: LeaseId, e: Translate.Event, r: SessionId)
    requires Enabled(env, s, TranslateTurn(l, e)) && r in s.clients
    ensures PutsAtMostOne(s, TranslateTurn(l, e), TurnTranslate(s, l, e), r)
  {
    var task := s.tasks[l];
    Translate.StepFrames(task.job.t, e, Hears(s, task.relay));
    PostOne(s, task.relay, Translate.Step(task.job.t, e, Hears(s, task.relay)).1, r);
  }

  lemma ConnectInboxes(env: Env, s: State, l: LeaseId, e: ConnectProxy.Event, r: SessionId)
    requires Enabled(env, s, ConnectTurn(l, e)) && r in s.clients
    ensures PutsAtMostOne(s, ConnectTurn(l, e), TurnConnect(env, s, l, e), r)
  {
    var task := s.tasks[l];
    PostOne(s, task.relay, ConnectProxy.Step(env.hosts, task.job.h.t, e, Hears(s, task.relay)).1, r);
  }

  lemma ResolveInboxes(env: Env, s: State, l: LeaseId, found: Option<seq<IpAddr>>, r: SessionId)
    requires Enabled(env, s, ResolveTurn(l, found)) && r in s.clients
    ensures PutsAtMostOne(s, ResolveTurn(l, found), TurnResolve(s, l, found), r)
  {
  }

  lemma TurnInbox(env: Env, s: State, step: Step, r: SessionId)
    requires Enabled(env, s, step) && r in s.clients
    requires TaskTurn(step)
    ensures PutsAtMostOne(s, step, Next(env, s, step), r)
  {
    match step
    case TranslateTurn(l, e) => TranslateInboxes(env, s, l, e, r);
    case ConnectTurn(l, e) => ConnectInboxes(env, s, l, e, r);
    case ResolveTurn(l, found) => ResolveInboxes(env, s, l, found, r);
    case ResolveEnds(l) =>
    case TaskExit(l) =>
  }

  lemma PostOne(s: State, i: SessionId, ms: seq<Bytes>, r: SessionId)
    requires |ms| <= 1
    ensures || Inbox(Post(s, i, ms), r) == Inbox(s, r)
            || (r == i && |ms| == 1 && Inbox(Post(s, i, ms), r) == Inbox(s, r) + [ms[0]])
  {
  }

  lemma ServeInbox(env: Env, s: State, sid: SessionId, call: Call, choice: Choice, r: SessionId)
    requires sid in s.clients
    ensures Inbox(Serve(env, s, sid, call, choice), r) == Inbox(s, r)
  {
  }

  lemma CommandInbox(env: Env, s: State, sid: SessionId, raw: Bytes, choice: Choice, r: SessionId)
    requires sid in s.clients
    ensures Inbox(RunCommand(env, s, sid, raw, choice), r) == Inbox(s, r)
  {
    match PlanFor(env, s.clients[sid], sid, raw)
    case Ask(call) => ServeInbox(env, s, sid, call, choice, r);
    case _ =>
  }

  lemma FinishInbox(env: Env, s: State, i: SessionId, l: LeaseId, answered: bool, r: SessionId)
    requires i in s.clients && s.clients[i].phase.Binding? && ClientSound(s.clients[i])
    ensures Inbox(FinishBind(env, s, i, l, answered), r) == Inbox(s, r)
  {
  }

  lemma QuietInbox(env: Env, s: State, step: Step, r: SessionId)
    requires Enabled(env, s, step) && r in s.clients
    requires !step.Command? && !step.Data? && !step.BindDone? && !TaskTurn(step)
    ensures Inbox(Next(env, s, step), r) == Inbox(s, r)
  {
  }

  /** A step puts at most one message on a relay, and only in these ways. */
  lemma StepInbox(env: Env, s: State, step: Step, r: SessionId)
    requires TokensSound(s) && Enabled(env, s, step) && r in s.clients
    ensures PutsAtMostOne(s, step, Next(env, s, step), r)
  {
    if TaskTurn(step) {
      TurnInbox(env, s, step, r);
    } else if step.Data? {
      DataInbox(env, s, step.sid, step.via, step.raw, r);
    } else if step.Command? {
      CommandInbox(env, s, step.sid, step.raw, step.choice, r);
    } else if step.BindDone? {
      assert ClientSound(s.clients[step.sid]);
      FinishInbox(env, s, step.sid, step.lease, step.answered, r);
    } else {
      QuietInbox(env, s, step, r);
    }
  }

  lemma NobodyHeard(s: State, i: SessionId, via: Via, raw: Bytes, r: SessionId)
    requires i in s.clients && r !in s.clients
    ensures r !in HandData(s, i, via, raw).clients
  {
  }

  lemma NobodyTurned(env: Env, s: State, step: Step, r: SessionId)
    requires Enabled(env, s, step) && TaskTurn(step) && r !in s.clients
    ensures r !in Next(env, s, step).clients
  {
  }

  /** A session that has not been opened has nothing on its relay. */
  lemma OpenInbox(env: Env, s: State, step: Step, r: SessionId)
    requires TokensSound(s) && Enabled(env, s, step) && r !in s.clients
    ensures Inbox(Next(env, s, step), r) == []
  {
    if TaskTurn(step) {
      NobodyTurned(env, s, step, r);
    } else if step.Data? {
      NobodyHeard(s, step.sid, step.via, step.raw, r);
    } else if step.Command? {
      CommandInbox(env, s, step.sid, step.raw, step.choice, r);
    }
  }

  /** The step of a run that put message number `j` on the relay of `r`. */
  ghost predicate PutBy(trace: seq<State>, steps: seq<Step>, i: nat, r: SessionId, j: nat, m: Bytes) {
    && i < |steps| && |trace| == |steps| + 1
    && |Inbox(trace[i], r)| == j && Inbox(trace[i + 1], r) == Inbox(trace[i], r) + [m]
    && Origin(trace[i], steps[i], r, m)
  }

  lemma InboxEdge(env: Env, trace: seq<State>, steps: seq<Step>, n: nat, r: SessionId)
    requires IsRun(env, trace, steps) && n < |steps|
    ensures PutsAtMostOne(trace[n], steps[n], trace[n + 1], r)
  {
    RunKeeps(env, trace, steps, n);
    assert StepAt(env, trace, steps, n);
    if r in trace[n].clients {
      StepInbox(env, trace[n], steps[n], r);
    } else {
      OpenInbox(env, trace[n], steps[n], r);
    }
  }

  /** Over a whole run, every message on a relay was put there once, by one
      step, and is what that step says: for a datagram between clients, what its
      sender handed over at a moment when its receiver held the port addressed;
      for any other message, what the receiver's own task then had for it. */
  lemma {:induction false} Provenance(
    env: Env, trace: seq<State>, steps: seq<Step>, n: nat, r: SessionId, j: nat)
    requires IsRun(env, trace, steps) && n < |trace| && j < |Inbox(trace[n], r)|
    ensures exists i: nat :: i < n && PutBy(trace, steps, i, r, j, Inbox(trace[n], r)[j])
  {
    assert n > 0;
    InboxEdge(env, trace, steps, n - 1, r);
    if j < |Inbox(trace[n - 1], r)| {
      Provenance(env, trace, steps, n - 1, r, j);
      var i: nat :| i < n - 1 && PutBy(trace, steps, i, r, j, Inbox(trace[n - 1], r)[j]);
      assert PutBy(trace, steps, i, r, j, Inbox(trace[n], r)[j]);
    } else {
      assert PutBy(trace, steps, n - 1, r, j, Inbox(trace[n], r)[j]);
    }
  }

  // ----- conversations -----

  /** A session that still holds a lease it held before still receives on the
      same port. */
  lemma StillReceives(
    env: Env, trace: seq<State>, steps: seq<Step>, i: nat, j: nat, q: SessionId, key: RouteKey)
    requires IsRun(env, trace, steps) && i <= j < |trace| && BoundTo(trace[i], q, key)
    requires q in trace[j].clients && Listening(trace[j].clients[q])
    ensures Receives(trace[j], q, key) && IsNetworkAddress(key.address)
  {
    var l := trace[i].clients[q].lease.value;
    LeaseNeverReplaced(env, trace, steps, i, j, q, l);
    RunKeeps(env, trace, steps, i);
    BoundIsServed(env, trace[i], q, key);
    RunKeeps(env, trace, steps, j);
    assert HolderSound(trace[j], q) && ClientSound(trace[j].clients[q]);
    LeaseFixed(env, trace, steps, i, j, l);
  }

  /** If a client answers the address that a delivered datagram came with, the
      answer is queued for the session that sent the datagram, and only for it,
      however much later, as long as that session still reads its relay. */
  lemma ReplyReachesSender(
    env: Env, trace: seq<State>, steps: seq<Step>, i: nat, j: nat,
    q: SessionId, from: RouteKey, raw: Bytes, m: Bytes, r: SessionId, at: RouteKey, via: Via, reply: Bytes)
    returns (answer: Bytes)
    requires IsRun(env, trace, steps) && i <= j < |trace|
    requires BoundTo(trace[i], q, from) && ArrivesAs(from, raw, m)
    requires q in trace[j].clients && Listening(trace[j].clients[q])
    requires HandsDatagram(env, trace[j], r, at, via, reply) && Packet.Decode(reply).Some?
    requires Packet.Peer(Packet.Decode(reply).value) == Packet.Peer(Packet.Decode(m).value)
    ensures ArrivesAs(at, reply, answer)
    ensures var t := Next(env, trace[j], Data(r, via, reply));
      forall k | k in trace[j].clients ::
        k in t.clients &&
        t.clients[k] == trace[j].clients[k].(inbox := Inbox(trace[j], k) + if k == q then [answer] else [])
  {
    StillReceives(env, trace, steps, i, j, q, from);
    ReachedByRun(env, trace, steps, j);
    AddressComesBack(from, m, reply);
    answer := DeliveredToHolderOnly(env, trace[j], r, at, via, reply);
  }

  lemma AddressComesBack(from: RouteKey, m: Bytes, reply: Bytes)
    requires Packet.Decode(m).Some? && Packet.Decode(reply).Some? && IsNetworkAddress(from.address)
    requires Packet.Decode(m).value.peerIp == from.address && Packet.Decode(m).value.peerPort == from.port
    requires Packet.Peer(Packet.Decode(reply).value) == Packet.Peer(Packet.Decode(m).value)
    ensures Packet.Decode(reply).value.peerIp == from.address && Packet.Decode(reply).value.peerPort == from.port
  {
    Packet.UnmappingKeepsNetworkAddresses(Packet.Decode(m).value);
    Packet.UnmappingKeepsNetworkAddresses(Packet.Decode(reply).value);
  }
}
