/** What every step of the proxy keeps. */
module ProxyInvariant {
  import opened Wrappers
  import opened BigEndian
  import opened Sequences
  import opened Code
  import opened NetworkState
  import opened Commands
  import opened Proxy
  import ConnectProxy
  import DnsProxy
  import Packet

  // ----- sessions, lease tokens and routes -----

  /** The port a session has claimed: under a lease, or in the middle of a BIND. */
  function Claimed(s: State, i: SessionId): Option<RouteKey>
    requires i in s.clients
  {
    var c := s.clients[i];
    if c.phase.Binding? then Some(c.phase.key)
    else if c.lease.Some? && c.lease.value in s.leases then s.leases[c.lease.value].key
    else None
  }

  /** One session by itself: until it ends it either has its relay or has
      exchanged it for a lease, only a lease makes it datagram-only, and it
      has somewhere to answer before it can have a lease. */
  ghost predicate ClientSound(c: Client) {
    && (Listening(c) ==> (c.relayTx <==> c.lease.None?))
    && (c.phase.Binding? ==> c.lease.None? && c.phase.call.Claim? && c.send)
    && (c.phase.Gone? ==> c.lease.None? && !c.relayTx)
    && (c.lease.None? ==> !c.relayUdp)
    && (c.lease.Some? ==> c.send)
    && c.taken <= |c.inbox|
  }

  ghost predicate LeaseSound(s: State, l: LeaseId)
    requires l in s.leases
  {
    var owner := s.leases[l].owner;
    owner in s.clients && s.clients[owner].lease == Some(l)
  }

  ghost predicate HolderSound(s: State, i: SessionId)
    requires i in s.clients
  {
    var c := s.clients[i];
    && (c.lease.Some? ==>
          && c.lease.value in s.leases && s.leases[c.lease.value].owner == i
          && (c.relayUdp <==> s.leases[c.lease.value].key.Some?))
    && (Claimed(s, i).Some? ==>
          Claimed(s, i).value in s.net.routes && s.net.routes[Claimed(s, i).value] == i)
  }

  ghost predicate RouteSound(s: State, k: RouteKey)
    requires k in s.net.routes
  {
    s.net.routes[k] in s.clients && Claimed(s, s.net.routes[k]) == Some(k)
  }

  ghost predicate TokensSound(s: State) {
    && (forall i | i in s.clients :: ClientSound(s.clients[i]))
    && (forall i | i in s.clients :: HolderSound(s, i))
    && (forall l | l in s.leases :: LeaseSound(s, l))
    && (forall k | k in s.net.routes :: RouteSound(s, k))
  }

  // ----- tasks -----

  ghost predicate TaskSound(s: State, l: LeaseId)
    requires l in s.tasks
  {
    var task := s.tasks[l];
    && task.relay in s.clients
    && (s.clients[task.relay].lease == Some(l) || s.clients[task.relay].phase.Gone?)
    && (task.job.Translating? ==>
          && !task.progress.Returned? && task.progress != Exited(true)
          && (task.progress.Working? <==> task.job.t.running))
    && (task.job.Connecting? ==>
          && task.job.read <= |task.job.given|
          && (task.progress.Working? <==> task.job.h.t.status == ConnectProxy.Running)
          && (!task.progress.Working? ==> (task.progress.failed <==> task.job.h.t.status == ConnectProxy.Failed)))
    && (task.job.Resolving? ==>
          && |task.job.answered| <= |task.job.asked|
          && (task.progress.Working? || !Listening(s.clients[task.relay])))
  }

  /** A live lease has its task; a bound one's runs as long as the session
      reads its relay. */
  ghost predicate LeaseServed(s: State, l: LeaseId)
    requires l in s.leases
  {
    && l in s.tasks
    && s.tasks[l].relay == s.leases[l].owner
    && (s.leases[l].key.Some? <==> s.tasks[l].job.Translating?)
    && (s.leases[l].key.Some? && s.leases[l].owner in s.clients && Listening(s.clients[s.leases[l].owner]) ==>
          s.tasks[l].progress == Working)
  }

  ghost predicate TasksSound(s: State) {
    && (forall l | l in s.tasks :: TaskSound(s, l))
    && (forall l | l in s.leases :: LeaseServed(s, l))
  }

  // ----- relays -----

  /** What a service task has relayed, with the wake-up of a failed one. */
  function Relayed(task: Task): seq<Bytes> {
    (match task.job
     case Connecting(h, _, _) => h.relayed
     case Resolving(_, answered) => DnsProxy.Answers(answered)
     case Translating(_, _) => [])
    + if task.progress == Exited(true) then [[]] else []
  }

  ghost predicate WholeFrames(inbox: seq<Bytes>) {
    forall j | 0 <= j < |inbox| :: Packet.Decode(inbox[j]).Some?
  }

  /** A listening session's relay holds nothing before it claims a port or
      gets a lease; whole frames under a bound port; and exactly what its task
      has relayed under a service link. */
  ghost predicate InboxSound(s: State, i: SessionId)
    requires i in s.clients
  {
    var c := s.clients[i];
    Listening(c) ==>
      if Claimed(s, i).Some? then WholeFrames(c.inbox)
      else if c.lease.None? then c.inbox == []
      else c.lease.value in s.tasks ==> c.inbox == Relayed(s.tasks[c.lease.value])
  }

  ghost predicate NoneEmpty(inbox: seq<Bytes>) {
    forall j | 0 <= j < |inbox| :: inbox[j] != []
  }

  /** What a service task has read is the beginning of what its lease was given. */
  ghost predicate ReadsInOrder(env: Env, task: Task) {
    match task.job
    case Translating(_, _) => true
    case Connecting(h, given, read) =>
      && read <= |given| && h.stream == Concat(given[..read])
      && ConnectProxy.Refines(env.hosts, h.t, h.stream, h.relayed, h.remote)
      && NoneEmpty(h.relayed)
    case Resolving(asked, answered) =>
      |answered| <= |asked| && forall j | 0 <= j < |answered| :: answered[j].0 == asked[j]
  }

  ghost predicate RelaysSound(env: Env, s: State) {
    && (forall i | i in s.clients :: InboxSound(s, i))
    && (forall l | l in s.tasks :: ReadsInOrder(env, s.tasks[l]))
  }

  // ----- the clock -----

  /** Every assignment was last touched by an event on record. */
  ghost predicate TouchesSound(net: NetState<SessionId>, touches: seq<(Ipv6, nat)>, now: nat) {
    && (forall a | a in net.byAddress :: (a, net.byAddress[a].touched) in touches)
    && (forall j | 0 <= j < |touches| :: touches[j].1 <= now)
  }

  ghost predicate Linked(env: Env, s: State) {
    && TokensSound(s)
    && TasksSound(s)
    && RelaysSound(env, s)
  }

  ghost predicate Inv(env: Env, s: State) {
    && Consistent(s.net)
    && Linked(env, s)
    && TouchesSound(s.net, s.touches, s.now)
  }
}
