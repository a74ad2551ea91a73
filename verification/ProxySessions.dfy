/** The steps of a session keep the invariant: commands, data, reading the
    relay, and being dropped. */
module ProxySessions {
  import opened Wrappers
  import opened BigEndian
  import opened NetworkState
  import opened Commands
  import opened Session
  import opened Proxy
  import opened ProxyInvariant
  import opened ProxySteps
  import ConnectProxy
  import Network
  import Packet
  import Translate

  // ----- data handed to a lease -----

  /** What a lease hands to its task goes to the back of the queue. */
  lemma GivenKeeps(env: Env, s: State, l: LeaseId, job: Job)
    requires Linked(env, s) && l in s.tasks && s.tasks[l].progress == Working
    requires match (s.tasks[l].job, job)
      case (Translating(t, _), Translating(t', _)) => t' == t
      case (Connecting(h, given, read), Connecting(h', given', read')) =>
        h' == h && read' == read && given <= given'
      case (Resolving(asked, answered), Resolving(asked', answered')) =>
        answered' == answered && asked <= asked'
      case _ => false
    ensures Linked(env, SetTask(s, l, s.tasks[l].(job := job)))
  {
    var task := s.tasks[l];
    var task' := task.(job := job);
    assert TaskSound(s, l) && ReadsInOrder(env, task);
    PostNothing(s, task.relay);
    if job.Translating? {
      TranslateInbox(s, l, task', []);
    } else {
      assert Relayed(task) + [] == Relayed(task');
      ServiceInbox(s, l, task', []);
      if job.Connecting? {
        assert task.job.given[..job.read] == job.given[..job.read];
      }
    }
    TaskTurns(env, s, l, task', []);
  }

  lemma SendKeeps(env: Env, s: State, l: LeaseId, raw: Bytes)
    requires Linked(env, s) && l in s.leases && l in s.tasks
    ensures Send(s, l, raw).Some? ==> Linked(env, Send(s, l, raw).value)
  {
    var task := s.tasks[l];
    if s.leases[l].key.Some? {
      var key := s.leases[l].key.value;
      match Network.DispatchFrame(key, raw)
      case Inward(to, wire) =>
        if to in s.net.routes {
          assert RouteSound(s, to);
          WireIsFrame(key, raw);
          PostKeeps(env, s, s.net.routes[to], wire);
        }
      case Outward(peer, data) =>
        if task.progress == Working && task.job.Translating? {
          GivenKeeps(env, s, l, task.job.(outgoing := task.job.outgoing + [(peer, data)]));
        }
      case _ =>
    } else if task.progress == Working {
      match task.job
      case Connecting(h, given, read) => GivenKeeps(env, s, l, Connecting(h, given + [raw], read));
      case Resolving(asked, answered) => GivenKeeps(env, s, l, Resolving(asked + [raw], answered));
      case Translating(_, _) =>
    }
  }

  lemma WireIsFrame(from: RouteKey, raw: Bytes)
    ensures Network.DispatchFrame(from, raw).Inward? ==> Packet.Decode(Network.DispatchFrame(from, raw).wire).Some?
  {
    Network.DispatchDecides(from, raw);
  }

  lemma ForwardKeeps(env: Env, s: State, sid: SessionId, raw: Bytes)
    requires Linked(env, s) && sid in s.clients && s.clients[sid].lease.Some?
    ensures var sent := Send(s, s.clients[sid].lease.value, raw); sent.Some? ==> Linked(env, sent.value)
  {
    LeaseOfClient(s, sid, s.clients[sid].lease.value);
    SendKeeps(env, s, s.clients[sid].lease.value, raw);
  }

  lemma DataKeeps(env: Env, s: State, sid: SessionId, via: Via, raw: Bytes)
    requires Linked(env, s) && sid in s.clients && s.clients[sid].phase.Serving?
    ensures Linked(env, HandData(s, sid, via, raw))
  {
    match OnData(s.clients[sid], via, raw)
    case Drop =>
    case Refuse => EndKeeps(env, s, sid);
    case Forward =>
      EndKeeps(env, s, sid);
      if s.clients[sid].lease.Some? {
        ForwardKeeps(env, s, sid, raw);
      }
  }

  lemma LeaseOfClient(s: State, sid: SessionId, l: LeaseId)
    requires TokensSound(s) && TasksSound(s) && sid in s.clients && s.clients[sid].lease == Some(l)
    ensures l in s.leases && s.leases[l].owner == sid && l in s.tasks && s.tasks[l].relay == sid
  {
    assert HolderSound(s, sid) && LeaseServed(s, l);
  }

  /** Nothing but what has been read, answered or accepted changes. */
  lemma QuietKeeps(env: Env, s: State, sid: SessionId, d: Client)
    requires Linked(env, s) && sid in s.clients && ClientSound(d)
    requires var c := s.clients[sid]; d == c.(taken := d.taken, replies := d.replies, send := d.send)
    ensures Linked(env, SetClient(s, sid, d))
  {
    assert InboxSound(s, sid);
    assert InboxSound(SetClient(s, sid, d), sid) by {
      assert Claimed(SetClient(s, sid, d), sid) == Claimed(s, sid);
    }
    ClientChanges(env, s, sid, d);
  }

  lemma TakenSound(c: Client)
    requires ClientSound(c)
    ensures NextMessage(c).Some? ==> ClientSound(c.(taken := c.taken + 1))
  {
  }

  lemma TakeKeeps(env: Env, s: State, sid: SessionId)
    requires Linked(env, s) && sid in s.clients
    ensures Linked(env, Take(s, sid))
  {
    var c, d := s.clients[sid], Take(s, sid).clients[sid];
    TakenSound(c);
    assert d == c.(taken := d.taken);
    QuietKeeps(env, s, sid, d);
  }

  lemma ReadKeeps(env: Env, s: State, sid: SessionId, link: Link)
    requires Linked(env, s) && sid in s.clients && s.clients[sid].phase.Serving?
    ensures Linked(env, Read(s, sid, link))
  {
    TakeKeeps(env, s, sid);
    EndKeeps(env, Take(s, sid), sid);
  }

  // ----- commands -----

  /** An answer that makes no lease leaves the session where it was, or ends it. */
  lemma AnswerKeeps(env: Env, s: State, sid: SessionId, call: Call, answer: Answer, answered: bool)
    requires Linked(env, s) && sid in s.clients
    requires s.clients[sid].phase.Serving? && s.clients[sid].lease.None?
    requires !answer.Granted? && (call.Route? ==> answer == Refused)
    ensures Linked(env, SetClient(s, sid, AfterCommand(env, s.clients[sid], sid, call, answer, answered)))
  {
    var c := s.clients[sid];
    var d := AfterCommand(env, c, sid, call, answer, answered);
    assert ClientSound(c) && InboxSound(s, sid);
    assert InboxSound(SetClient(s, sid, d), sid) by {
      assert Claimed(SetClient(s, sid, d), sid) == Claimed(s, sid);
    }
    ClientChanges(env, s, sid, d);
  }

  /** A port is claimed for a session that had none. */
  lemma ClaimKeeps(env: Env, s: State, sid: SessionId, call: Call, key: RouteKey, t: State)
    requires Linked(env, s) && sid in s.clients && call.Claim? && s.clients[sid].send
    requires s.clients[sid].phase.Serving? && s.clients[sid].lease.None? && key !in s.net.routes
    requires t.net.routes == s.net.routes[key := sid]
    requires t.clients == s.clients[sid := s.clients[sid].(phase := Binding(call, key))]
    requires t.leases == s.leases && t.tasks == s.tasks
    ensures Linked(env, t)
  {
    assert ClientSound(s.clients[sid]) && InboxSound(s, sid);
    assert Claimed(s, sid).None?;
    ClaimTokens(s, sid, t);
    TasksStandFor(s, t, sid);
    forall i | i in t.clients ensures InboxSound(t, i) {
      assert InboxSound(s, i);
    }
  }

  lemma ClaimTokens(s: State, sid: SessionId, t: State)
    requires TokensSound(s) && sid in s.clients && sid in t.clients && t.clients[sid].phase.Binding?
    requires s.clients[sid].phase.Serving? && s.clients[sid].lease.None?
    requires var key := t.clients[sid].phase.key;
      key !in s.net.routes && t.net.routes == s.net.routes[key := sid]
    requires t.clients == s.clients[sid := s.clients[sid].(phase := t.clients[sid].phase)]
    requires ClientSound(t.clients[sid]) && t.leases == s.leases
    ensures TokensSound(t)
    ensures forall i | i in s.clients && i != sid :: Claimed(t, i) == Claimed(s, i)
  {
    forall i | i in t.clients ensures HolderSound(t, i) && (i != sid ==> Claimed(t, i) == Claimed(s, i)) {
      assert HolderSound(s, i);
    }
    forall l | l in t.leases ensures LeaseSound(t, l) {
      assert LeaseSound(s, l);
    }
    forall k | k in t.net.routes ensures RouteSound(t, k) {
      if k in s.net.routes {
        assert RouteSound(s, k);
      }
    }
  }

  lemma TasksStandFor(s: State, t: State, sid: SessionId)
    requires TasksSound(s) && t.leases == s.leases && t.tasks == s.tasks
    requires sid in s.clients && sid in t.clients && t.clients == s.clients[sid := t.clients[sid]]
    requires t.clients[sid].lease == s.clients[sid].lease
    requires Listening(t.clients[sid]) ==> Listening(s.clients[sid])
    requires s.clients[sid].phase.Gone? ==> t.clients[sid].phase.Gone?
    ensures TasksSound(t)
  {
    forall l | l in t.tasks ensures TaskSound(t, l) {
      assert TaskSound(s, l);
    }
    forall l | l in t.leases ensures LeaseServed(t, l) {
      assert LeaseServed(s, l);
    }
  }

  /** A listening session exchanges its relay for a new lease with a new task,
      keeping the claim it has. */
  lemma GrantTokens(s: State, sid: SessionId, l: LeaseId, key: Option<RouteKey>, t: State)
    requires TokensSound(s) && sid in s.clients && sid in t.clients && l !in s.leases
    requires Claimed(s, sid) == key && s.clients[sid].lease.None? && !t.clients[sid].phase.Binding?
    requires t.net == s.net && t.leases == s.leases[l := Lease(sid, key)]
    requires t.clients == s.clients[sid := t.clients[sid]]
    requires ClientSound(t.clients[sid]) && t.clients[sid].lease == Some(l)
    requires t.clients[sid].relayUdp <==> key.Some?
    ensures TokensSound(t)
    ensures forall i | i in s.clients :: Claimed(t, i) == Claimed(s, i)
  {
    forall i | i in t.clients ensures HolderSound(t, i) && Claimed(t, i) == Claimed(s, i) {
      assert HolderSound(s, i);
    }
    forall j | j in t.leases ensures LeaseSound(t, j) {
      if j != l {
        assert LeaseSound(s, j);
      }
    }
    forall k | k in t.net.routes ensures RouteSound(t, k) {
      assert RouteSound(s, k);
    }
  }

  lemma GrantTasks(s: State, sid: SessionId, l: LeaseId, key: Option<RouteKey>, job: Job, t: State)
    requires TasksSound(s) && TokensSound(s) && sid in s.clients && sid in t.clients && l !in s.tasks
    requires s.clients[sid].lease.None? && !s.clients[sid].phase.Gone?
    requires t.leases == s.leases[l := Lease(sid, key)]
    requires t.tasks == s.tasks[l := Task(sid, job, Working)]
    requires t.clients == s.clients[sid := t.clients[sid]] && t.clients[sid].lease == Some(l)
    requires TaskSound(t, l) && (key.Some? <==> job.Translating?)
    ensures TasksSound(t)
  {
    forall j | j in t.tasks ensures TaskSound(t, j) {
      if j != l {
        assert TaskSound(s, j);
      }
    }
    forall j | j in t.leases ensures LeaseServed(t, j) {
      if j != l {
        assert LeaseServed(s, j) && LeaseSound(s, j);
      }
    }
  }

  lemma GrantRelays(env: Env, s: State, sid: SessionId, l: LeaseId, job: Job, t: State)
    requires RelaysSound(env, s) && TokensSound(s) && TasksSound(s) && sid in s.clients && sid in t.clients
    requires l !in s.tasks && t.tasks == s.tasks[l := Task(sid, job, Working)]
    requires t.clients == s.clients[sid := t.clients[sid]]
    requires forall i | i in s.clients :: Claimed(t, i) == Claimed(s, i)
    requires ReadsInOrder(env, t.tasks[l]) && InboxSound(t, sid)
    ensures RelaysSound(env, t)
  {
    forall i | i in t.clients ensures InboxSound(t, i) {
      if i != sid {
        assert InboxSound(s, i) && HolderSound(s, i);
        if s.clients[i].lease.Some? {
          assert LeaseServed(s, s.clients[i].lease.value);
        }
      }
    }
  }

  lemma FreshLease(s: State, l: LeaseId)
    requires TasksSound(s) && l !in s.tasks
    ensures l !in s.leases
  {
    forall j | j in s.leases ensures j in s.tasks {
      assert LeaseServed(s, j);
    }
  }

  lemma FinishedInbox(s: State, sid: SessionId, l: LeaseId, t: State)
    requires sid in s.clients && s.clients[sid].phase.Binding? && InboxSound(s, sid)
    requires sid in t.clients && t.clients[sid].inbox == s.clients[sid].inbox
    requires t.clients[sid].lease == Some(l) && !t.clients[sid].phase.Binding?
    requires l in t.leases && t.leases[l].key == Some(s.clients[sid].phase.key)
    ensures InboxSound(t, sid)
  {
  }

  lemma BindDoneKeeps(env: Env, s: State, sid: SessionId, l: LeaseId, answered: bool)
    requires Linked(env, s) && sid in s.clients && s.clients[sid].phase.Binding? && l !in s.tasks
    ensures Linked(env, FinishBind(env, s, sid, l, answered))
  {
    var c := s.clients[sid];
    var t := FinishBind(env, s, sid, l, answered);
    var job := Translating(Translate.NEW_TRANSLATOR, []);
    assert ClientSound(c);
    FreshLease(s, l);
    GrantTokens(s, sid, l, Some(c.phase.key), t);
    GrantTasks(s, sid, l, Some(c.phase.key), job, t);
    FinishedInbox(s, sid, l, t);
    GrantRelays(env, s, sid, l, job, t);
  }

  lemma RouteKeeps(env: Env, s: State, sid: SessionId, call: Call, choice: Choice)
    requires Linked(env, s) && sid in s.clients && call.Route? && call.relay == sid
    requires s.clients[sid].phase.Serving? && s.clients[sid].lease.None? && s.clients[sid].send
    requires choice.lease !in s.tasks && ServiceJob(call.addr).Some?
    ensures Linked(env, Serve(env, s, sid, call, choice))
  {
    var c := s.clients[sid];
    var t := Serve(env, s, sid, call, choice);
    var job := ServiceJob(call.addr).value;
    assert ClientSound(c) && InboxSound(s, sid);
    FreshLease(s, choice.lease);
    GrantTokens(s, sid, choice.lease, None, t);
    GrantTasks(s, sid, choice.lease, None, job, t);
    assert ReadsInOrder(env, t.tasks[choice.lease]) by {
      ConnectProxy.LoopRefinesOneShot(env.hosts, []);
    }
    GrantRelays(env, s, sid, choice.lease, job, t);
  }

  // ----- the end of a session -----

  lemma DropClaims(s: State, sid: SessionId, t: State, i: SessionId)
    requires TokensSound(s) && sid in s.clients && i in s.clients && i != sid
    requires i in t.clients && t.clients[i] == s.clients[i]
    requires t.leases == if s.clients[sid].lease.Some? then s.leases - {s.clients[sid].lease.value} else s.leases
    ensures Claimed(t, i) == Claimed(s, i)
  {
    assert HolderSound(s, sid) && HolderSound(s, i);
  }

  lemma DropTokens(s: State, sid: SessionId, t: State)
    requires TokensSound(s) && sid in s.clients && sid in t.clients && s.clients[sid].phase.Ending?
    requires t.clients == s.clients[sid := t.clients[sid]]
    requires ClientSound(t.clients[sid]) && t.clients[sid].lease.None? && t.clients[sid].phase.Gone?
    requires t.leases == if s.clients[sid].lease.Some? then s.leases - {s.clients[sid].lease.value} else s.leases
    requires t.net.routes
      == if Claimed(s, sid).Some? then s.net.routes - {Claimed(s, sid).value} else s.net.routes
    ensures TokensSound(t)
    ensures forall i | i in s.clients && i != sid :: Claimed(t, i) == Claimed(s, i)
  {
    assert HolderSound(s, sid);
    forall i | i in t.clients ensures HolderSound(t, i) && (i != sid ==> Claimed(t, i) == Claimed(s, i)) {
      assert HolderSound(s, i);
      if i != sid {
        DropClaims(s, sid, t, i);
      }
    }
    forall j | j in t.leases ensures LeaseSound(t, j) {
      assert LeaseSound(s, j);
    }
    forall k | k in t.net.routes ensures RouteSound(t, k) {
      assert RouteSound(s, k);
    }
  }

  lemma DropTasks(s: State, sid: SessionId, t: State)
    requires TasksSound(s) && TokensSound(s) && sid in s.clients && sid in t.clients
    requires t.clients == s.clients[sid := t.clients[sid]] && t.clients[sid].phase.Gone?
    requires t.leases == if s.clients[sid].lease.Some? then s.leases - {s.clients[sid].lease.value} else s.leases
    requires t.tasks == s.tasks
    ensures TasksSound(t)
  {
    forall j | j in t.tasks ensures TaskSound(t, j) {
      assert TaskSound(s, j);
    }
    forall j | j in t.leases ensures LeaseServed(t, j) {
      assert LeaseServed(s, j);
    }
  }

  /** A dropped session gives back exactly the port it had claimed. */
  lemma DropReleases(s: State, sid: SessionId)
    requires TokensSound(s) && Consistent(s.net) && sid in s.clients && s.clients[sid].phase.Ending?
    ensures DropClient(s, sid).net.routes
      == if Claimed(s, sid).Some? then s.net.routes - {Claimed(s, sid).value} else s.net.routes
    ensures DropClient(s, sid).net
      == if Claimed(s, sid).Some? then Unbind(s.net, Claimed(s, sid).value, s.now) else s.net
    ensures Claimed(s, sid).Some? ==> Claimed(s, sid).value in s.net.routes
  {
    assert HolderSound(s, sid);
    if Claimed(s, sid).Some? {
      UnbindOutcome(s.net, Claimed(s, sid).value, s.now);
    }
  }

  lemma DropShape(s: State, sid: SessionId)
    requires TokensSound(s) && sid in s.clients && s.clients[sid].phase.Ending?
    ensures var t, c := DropClient(s, sid), s.clients[sid];
      && t.clients == s.clients[sid := c.(phase := Gone, relayTx := false, lease := None, relayUdp := false)]
      && t.leases == (if c.lease.Some? then s.leases - {c.lease.value} else s.leases)
      && t.tasks == s.tasks
      && ClientSound(t.clients[sid])
  {
    assert ClientSound(s.clients[sid]) && HolderSound(s, sid);
  }

  lemma DropKeeps(env: Env, s: State, sid: SessionId)
    requires Linked(env, s) && Consistent(s.net) && sid in s.clients && s.clients[sid].phase.Ending?
    ensures Linked(env, DropClient(s, sid))
  {
    var t := DropClient(s, sid);
    DropReleases(s, sid);
    DropShape(s, sid);
    DropTokens(s, sid, t);
    DropTasks(s, sid, t);
    DropRelays(env, s, sid, t);
  }

  lemma DropRelays(env: Env, s: State, sid: SessionId, t: State)
    requires RelaysSound(env, s) && sid in s.clients && sid in t.clients && t.tasks == s.tasks
    requires t.clients == s.clients[sid := t.clients[sid]] && t.clients[sid].phase.Gone?
    requires forall i | i in s.clients && i != sid :: Claimed(t, i) == Claimed(s, i)
    ensures RelaysSound(env, t)
  {
    forall i | i in t.clients ensures InboxSound(t, i) {
      assert InboxSound(s, i);
    }
  }
}
