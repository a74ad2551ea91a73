/** Every step of the proxy keeps the invariant. */
module ProxySteps {
  import opened Wrappers
  import opened BigEndian
  import opened Sequences
  import opened Code
  import opened Commands
  import opened Proxy
  import opened ProxyInvariant
  import ConnectProxy
  import DnsProxy
  import Packet
  import Translate

  /** The session's claim, its lease and its place in the machine stay put. */
  ghost predicate SameStanding(c: Client, d: Client) {
    && d.lease == c.lease && d.relayUdp == c.relayUdp && d.transport == c.transport
    && (Listening(d) ==> Listening(c))
    && (c.phase.Binding? || d.phase.Binding? || c.phase.Gone? || d.phase.Gone? ==> d.phase == c.phase)
  }

  /** One session changes without giving up or taking on a claim or a lease. */
  lemma TokensStand(s: State, t: State, sid: SessionId)
    requires TokensSound(s)
    requires t.net.routes == s.net.routes && t.leases == s.leases
    requires sid in s.clients && sid in t.clients && t.clients == s.clients[sid := t.clients[sid]]
    requires ClientSound(t.clients[sid]) && SameStanding(s.clients[sid], t.clients[sid])
    ensures TokensSound(t)
    ensures forall i | i in s.clients :: Claimed(t, i) == Claimed(s, i)
  {
    forall i | i in t.clients ensures Claimed(t, i) == Claimed(s, i) && HolderSound(t, i) {
      assert HolderSound(s, i);
    }
    forall l | l in t.leases ensures LeaseSound(t, l) {
      assert LeaseSound(s, l);
    }
    forall k | k in t.net.routes ensures RouteSound(t, k) {
      assert RouteSound(s, k);
    }
  }

  lemma TasksStand(s: State, t: State, sid: SessionId)
    requires TasksSound(s) && t.leases == s.leases && t.tasks == s.tasks
    requires sid in s.clients && sid in t.clients && t.clients == s.clients[sid := t.clients[sid]]
    requires SameStanding(s.clients[sid], t.clients[sid])
    ensures TasksSound(t)
  {
    forall l | l in t.tasks ensures TaskSound(t, l) {
      assert TaskSound(s, l);
    }
    forall l | l in t.leases ensures LeaseServed(t, l) {
      assert LeaseServed(s, l);
    }
  }

  lemma ClientChanges(env: Env, s: State, sid: SessionId, d: Client)
    requires Linked(env, s) && sid in s.clients
    requires ClientSound(d) && SameStanding(s.clients[sid], d)
    requires InboxSound(SetClient(s, sid, d), sid)
    ensures Linked(env, SetClient(s, sid, d))
  {
    var t := SetClient(s, sid, d);
    TokensStand(s, t, sid);
    TasksStand(s, t, sid);
    forall i | i in t.clients ensures InboxSound(t, i) {
      assert InboxSound(s, i);
    }
  }

  lemma EndKeeps(env: Env, s: State, sid: SessionId)
    requires Linked(env, s) && sid in s.clients && s.clients[sid].phase.Serving?
    ensures Linked(env, End(s, sid))
  {
    assert ClientSound(s.clients[sid]);
    ClientChanges(env, s, sid, s.clients[sid].(phase := Ending));
  }

  /** A whole frame may be queued for a session that has claimed a port. */
  lemma PostKeeps(env: Env, s: State, sid: SessionId, m: Bytes)
    requires Linked(env, s) && sid in s.clients && Claimed(s, sid).Some? && Packet.Decode(m).Some?
    ensures Linked(env, Post(s, sid, [m]))
  {
    var c := s.clients[sid];
    if Listening(c) {
      InboxAppend(s, sid, [m]);
      assert ClientSound(c);
      ClientChanges(env, s, sid, c.(inbox := c.inbox + [m]));
    }
  }

  lemma InboxAppend(s: State, sid: SessionId, ms: seq<Bytes>)
    requires sid in s.clients && InboxSound(s, sid) && Claimed(s, sid).Some? && WholeFrames(ms)
    ensures var c := s.clients[sid]; InboxSound(SetClient(s, sid, c.(inbox := c.inbox + ms)), sid)
  {
    var c := s.clients[sid];
    var t := SetClient(s, sid, c.(inbox := c.inbox + ms));
    assert Claimed(t, sid) == Claimed(s, sid);
  }

  lemma TaskSwapped(s: State, l: LeaseId, task: Task)
    requires TasksSound(s) && l in s.tasks
    requires task.relay == s.tasks[l].relay
    requires task.job.Translating? == s.tasks[l].job.Translating?
    requires TaskSound(SetTask(s, l, task), l)
    requires task.job.Translating? && LeaseWorks(s, l) ==> task.progress == s.tasks[l].progress
    ensures TasksSound(SetTask(s, l, task))
  {
    var t := SetTask(s, l, task);
    forall j | j in t.tasks ensures TaskSound(t, j) {
      assert TaskSound(s, j);
    }
    forall j | j in t.leases ensures LeaseServed(t, j) {
      assert LeaseServed(s, j);
    }
  }

  /** A live bound lease whose session still reads its relay. */
  ghost predicate LeaseWorks(s: State, l: LeaseId) {
    l in s.leases && s.leases[l].owner in s.clients && Listening(s.clients[s.leases[l].owner])
  }

  /** A task changes, and with it the inbox of its own client only. */
  lemma RelaysSwapped(env: Env, s: State, t: State, l: LeaseId, task: Task)
    requires RelaysSound(env, s) && TokensSound(s) && TasksSound(s)
    requires l in s.tasks && t.tasks == s.tasks[l := task] && task.relay == s.tasks[l].relay
    requires t.leases == s.leases && t.clients.Keys == s.clients.Keys && task.relay in s.clients
    requires forall i | i in s.clients && i != task.relay :: t.clients[i] == s.clients[i]
    requires InboxSound(t, task.relay) && ReadsInOrder(env, task)
    ensures RelaysSound(env, t)
  {
    forall i | i in t.clients ensures InboxSound(t, i) {
      if i != task.relay {
        assert InboxSound(s, i) && HolderSound(s, i);
        assert Claimed(t, i) == Claimed(s, i);
        if s.clients[i].lease.Some? {
          assert LeaseServed(s, s.clients[i].lease.value);
        }
      }
    }
  }

  lemma SwappedLinked(env: Env, s: State, posted: State, l: LeaseId, task: Task)
    requires Linked(env, s) && TokensSound(posted) && TasksSound(posted)
    requires l in s.tasks && posted.tasks == s.tasks && task.relay == s.tasks[l].relay
    requires posted.leases == s.leases && posted.clients.Keys == s.clients.Keys && task.relay in s.clients
    requires forall i | i in s.clients && i != task.relay :: posted.clients[i] == s.clients[i]
    requires task.job.Translating? == s.tasks[l].job.Translating?
    requires task.job.Translating? && LeaseWorks(posted, l) ==> task.progress == s.tasks[l].progress
    requires var t := SetTask(posted, l, task);
      TaskSound(t, l) && ReadsInOrder(env, task) && InboxSound(t, task.relay)
    ensures Linked(env, SetTask(posted, l, task))
  {
    TaskSwapped(posted, l, task);
    RelaysSwapped(env, s, SetTask(posted, l, task), l, task);
    TokensSameTasks(posted, SetTask(posted, l, task));
  }

  /** A task takes a turn, and its client's inbox grows by what it relays. */
  lemma PostShape(s: State, i: SessionId, ms: seq<Bytes>)
    requires i in s.clients
    ensures var t := Post(s, i, ms);
      && t.tasks == s.tasks && t.leases == s.leases && t.clients.Keys == s.clients.Keys
      && forall j | j in s.clients && j != i :: t.clients[j] == s.clients[j]
  {
  }

  lemma TaskTurns(env: Env, s: State, l: LeaseId, task: Task, ms: seq<Bytes>)
    requires Linked(env, s) && l in s.tasks && s.tasks[l].relay in s.clients
    requires task.relay == s.tasks[l].relay
    requires task.job.Translating? == s.tasks[l].job.Translating?
    requires task.job.Translating? && LeaseWorks(s, l) ==> task.progress == s.tasks[l].progress
    requires var t := SetTask(Post(s, task.relay, ms), l, task);
      TaskSound(t, l) && ReadsInOrder(env, task) && InboxSound(t, task.relay)
    ensures Linked(env, SetTask(Post(s, task.relay, ms), l, task))
  {
    PostShape(s, task.relay, ms);
    PostStands(s, task.relay, ms);
    PostKeepsWork(s, task.relay, ms, l);
    SwappedLinked(env, s, Post(s, task.relay, ms), l, task);
  }

  lemma PostStands(s: State, i: SessionId, ms: seq<Bytes>)
    requires TokensSound(s) && TasksSound(s) && i in s.clients
    ensures TokensSound(Post(s, i, ms)) && TasksSound(Post(s, i, ms))
  {
    var c, t := s.clients[i], Post(s, i, ms);
    assert ClientSound(c);
    if Listening(c) {
      assert ClientSound(c.(inbox := c.inbox + ms));
      TokensStand(s, t, i);
      TasksStand(s, t, i);
    }
  }

  lemma PostKeepsWork(s: State, i: SessionId, ms: seq<Bytes>, l: LeaseId)
    requires i in s.clients
    ensures LeaseWorks(Post(s, i, ms), l) == LeaseWorks(s, l)
  {
  }

  lemma TokensSameTasks(s: State, t: State)
    requires TokensSound(s) && t == s.(tasks := t.tasks)
    ensures TokensSound(t)
  {
    forall i | i in t.clients ensures HolderSound(t, i) {
      assert HolderSound(s, i) && Claimed(t, i) == Claimed(s, i);
    }
    forall l | l in t.leases ensures LeaseSound(t, l) {
      assert LeaseSound(s, l);
    }
    forall k | k in t.net.routes ensures RouteSound(t, k) {
      assert RouteSound(s, k) && Claimed(t, s.net.routes[k]) == Claimed(s, s.net.routes[k]);
    }
  }

  /** The client of a task at work is the holder of its lease, or gone. */
  lemma TaskClient(s: State, l: LeaseId)
    requires TokensSound(s) && TasksSound(s) && l in s.tasks
    ensures s.tasks[l].relay in s.clients
    ensures var i := s.tasks[l].relay;
      Listening(s.clients[i]) ==>
        && s.clients[i].lease == Some(l) && l in s.leases && s.leases[l].owner == i
        && (Claimed(s, i).Some? <==> s.tasks[l].job.Translating?)
        && Claimed(s, i) == s.leases[l].key
    ensures LeaseWorks(s, l) ==> s.leases[l].owner == s.tasks[l].relay && Listening(s.clients[s.tasks[l].relay])
  {
    assert TaskSound(s, l) && HolderSound(s, s.tasks[l].relay) && ClientSound(s.clients[s.tasks[l].relay]);
    if l in s.leases {
      assert LeaseServed(s, l) && LeaseSound(s, l);
    }
  }

  lemma PostKeepsClaims(s: State, l: LeaseId, task: Task, ms: seq<Bytes>, i: SessionId)
    requires i in s.clients && task.relay in s.clients
    ensures Claimed(SetTask(Post(s, task.relay, ms), l, task), i) == Claimed(s, i)
  {
  }

  lemma TurnedTaskSound(s: State, l: LeaseId, e: Translate.Event)
    requires TokensSound(s) && TasksSound(s)
    requires AtWork(s, l) && s.tasks[l].job.Translating? && TranslateWakes(s, l, e)
    ensures s.tasks[l].relay in s.clients && TaskSound(TurnTranslate(s, l, e), l)
    ensures LeaseWorks(s, l) ==> TurnTranslate(s, l, e).tasks[l].progress == Working
  {
    assert TaskSound(s, l);
    TaskClient(s, l);
    TurnStaysOpen(s, l, e);
  }

  lemma TranslatedInbox(env: Env, s: State, l: LeaseId, e: Translate.Event)
    requires Linked(env, s) && l in s.tasks && s.tasks[l].job.Translating? && s.tasks[l].relay in s.clients
    ensures InboxSound(TurnTranslate(s, l, e), s.tasks[l].relay)
  {
    var task := s.tasks[l];
    var open := Hears(s, task.relay);
    Translate.RelayedAreFrames(task.job.t, e, open);
    TranslateInbox(s, l, AfterTranslate(task, e, open), Translate.Step(task.job.t, e, open).1);
  }

  lemma TranslateKeeps(env: Env, s: State, l: LeaseId, e: Translate.Event)
    requires Linked(env, s) && AtWork(s, l) && s.tasks[l].job.Translating? && TranslateWakes(s, l, e)
    ensures Linked(env, TurnTranslate(s, l, e))
  {
    var task := s.tasks[l];
    var open := Hears(s, task.relay);
    var task', sent := AfterTranslate(task, e, open), Translate.Step(task.job.t, e, open).1;
    TurnedTaskSound(s, l, e);
    TranslatedInbox(env, s, l, e);
    TaskTurns(env, s, l, task', sent);
  }

  /** A translation task goes on while its session reads its relay. */
  lemma TurnStaysOpen(s: State, l: LeaseId, e: Translate.Event)
    requires TokensSound(s) && TasksSound(s)
    requires AtWork(s, l) && s.tasks[l].job.Translating? && TranslateWakes(s, l, e)
    ensures LeaseWorks(s, l) ==> Translate.Step(s.tasks[l].job.t, e, true).0.running
  {
    TaskClient(s, l);
    assert TaskSound(s, l);
    if e.Incoming? && e.received.Some? {
      Translate.RelayReplyFrames(e.received.value.0, e.received.value.1, true);
    }
  }

  lemma TranslateInbox(s: State, l: LeaseId, task: Task, ms: seq<Bytes>)
    requires TokensSound(s) && TasksSound(s) && l in s.tasks && task.relay == s.tasks[l].relay
    requires task.relay in s.clients && InboxSound(s, task.relay)
    requires s.tasks[l].job.Translating? && task.job.Translating? && WholeFrames(ms)
    ensures InboxSound(SetTask(Post(s, task.relay, ms), l, task), task.relay)
  {
    TaskClient(s, l);
    if Hears(s, task.relay) {
      InboxAppend(s, task.relay, ms);
      PostKeepsClaims(s, l, task, ms, task.relay);
    }
  }

  /** What a service task's turn leaves on its client's relay. */
  lemma ServiceInbox(s: State, l: LeaseId, task: Task, ms: seq<Bytes>)
    requires TokensSound(s) && TasksSound(s) && l in s.tasks && task.relay == s.tasks[l].relay
    requires task.relay in s.clients && InboxSound(s, task.relay)
    requires !s.tasks[l].job.Translating?
    requires Hears(s, task.relay) ==> Relayed(task) == Relayed(s.tasks[l]) + ms
    ensures InboxSound(SetTask(Post(s, task.relay, ms), l, task), task.relay)
  {
    TaskClient(s, l);
    if Hears(s, task.relay) {
      PostKeepsClaims(s, l, task, ms, task.relay);
    }
  }

  lemma ConnectKeeps(env: Env, s: State, l: LeaseId, e: ConnectProxy.Event)
    requires Linked(env, s) && AtWork(s, l) && s.tasks[l].job.Connecting? && ConnectWakes(s, l, e)
    ensures Linked(env, TurnConnect(env, s, l, e))
  {
    var task := s.tasks[l];
    assert TaskSound(s, l);
    var open := Hears(s, task.relay);
    var sent := ConnectProxy.Step(env.hosts, task.job.h.t, e, open).1;
    var task' := AfterConnect(env, task, e, open);
    ConnectReads(env, task, e, open);
    ConnectProgress(env, task, e, open);
    ServiceInbox(s, l, task', sent);
    TaskTurns(env, s, l, task', sent);
  }

  /** Each chunk the task reads is the next one it was given. */
  lemma ConnectReads(env: Env, task: Task, e: ConnectProxy.Event, open: bool)
    requires task.job.Connecting? && ReadsInOrder(env, task)
    requires e.Chunk? ==> task.job.read < |task.job.given| && task.job.given[task.job.read] == e.data
    requires task.job.h.t.status == ConnectProxy.Running
    ensures ReadsInOrder(env, AfterConnect(env, task, e, open))
  {
    var h := task.job.h;
    ConnectProxy.StepRefines(env.hosts, h.t, h.stream, h.relayed, h.remote, e, open);
    ConnectSendsData(env.hosts, h.t, e, open);
    ConnectReadsOn(h.stream, task.job.given, task.job.read, e);
  }

  /** What the task relays in a turn, and how it stands after it. */
  lemma ConnectProgress(env: Env, task: Task, e: ConnectProxy.Event, open: bool)
    requires task.job.Connecting? && task.progress == Working
    ensures var task' := AfterConnect(env, task, e, open);
      && Relayed(task') == Relayed(task) + ConnectProxy.Step(env.hosts, task.job.h.t, e, open).1
      && (task'.progress.Working? <==> task'.job.h.t.status == ConnectProxy.Running)
      && (!task'.progress.Working? ==> (task'.progress.failed <==> task'.job.h.t.status == ConnectProxy.Failed))
  {
  }

  lemma ConnectReadsOn(stream: Bytes, given: seq<Bytes>, read: nat, e: ConnectProxy.Event)
    requires read <= |given| && stream == Concat(given[..read])
    requires e.Chunk? ==> read < |given| && given[read] == e.data
    ensures if e.Chunk? then stream + e.data == Concat(given[..read + 1]) else stream + [] == stream
  {
    if e.Chunk? {
      ConcatOneMore(given, read);
    }
  }

  lemma ConnectSendsData(hosts: set<string>, t: ConnectProxy.Tunnel, e: ConnectProxy.Event, open: bool)
    ensures NoneEmpty(ConnectProxy.Step(hosts, t, e, open).1)
  {
  }

  lemma ResolveReads(env: Env, task: Task, found: Option<seq<IpAddr>>)
    requires task.job.Resolving? && ReadsInOrder(env, task) && task.progress == Working
    requires |task.job.answered| < |task.job.asked|
    ensures var query := task.job.asked[|task.job.answered|];
      var task' := task.(job := Resolving(task.job.asked, task.job.answered + [(query, found)]));
      ReadsInOrder(env, task') && Relayed(task') == Relayed(task) + [DnsProxy.Answer(query, found)]
  {
    var query := task.job.asked[|task.job.answered|];
    DnsProxy.AnswersOneMore(task.job.answered, query, found);
  }

  lemma ResolveKeeps(env: Env, s: State, l: LeaseId, found: Option<seq<IpAddr>>)
    requires Linked(env, s) && AtWork(s, l) && s.tasks[l].job.Resolving?
    requires |s.tasks[l].job.answered| < |s.tasks[l].job.asked|
    ensures Linked(env, TurnResolve(s, l, found))
  {
    var task := s.tasks[l];
    assert TaskSound(s, l);
    if Hears(s, task.relay) {
      var query := task.job.asked[|task.job.answered|];
      var task' := task.(job := Resolving(task.job.asked, task.job.answered + [(query, found)]));
      ResolveReads(env, task, found);
      ServiceInbox(s, l, task', [DnsProxy.Answer(query, found)]);
      TaskTurns(env, s, l, task', [DnsProxy.Answer(query, found)]);
    } else {
      TaskQuiet(env, s, l, task.(progress := Returned(true)));
    }
  }

  /** A service task's progress changes without a word. */
  lemma TaskQuiet(env: Env, s: State, l: LeaseId, task: Task)
    requires Linked(env, s) && l in s.tasks && s.tasks[l].relay in s.clients
    requires task == s.tasks[l].(progress := task.progress) && !task.job.Translating?
    requires task.progress != Exited(true) && s.tasks[l].progress != Exited(true) && !task.progress.Working?
    requires task.job.Connecting? ==>
      task.job.h.t.status == if task.progress.failed then ConnectProxy.Failed else ConnectProxy.Finished
    requires task.job.Resolving? ==> !Listening(s.clients[task.relay])
    ensures Linked(env, SetTask(s, l, task))
  {
    assert TaskSound(s, l) && ReadsInOrder(env, s.tasks[l]);
    assert Relayed(s.tasks[l]) + [] == Relayed(s.tasks[l]);
    PostNothing(s, task.relay);
    ServiceInbox(s, l, task, []);
    TaskTurns(env, s, l, task, []);
  }

  lemma PostNothing(s: State, i: SessionId)
    requires i in s.clients
    ensures Post(s, i, []) == s
  {
    assert s.clients[i].inbox + [] == s.clients[i].inbox;
    assert s.clients[i := s.clients[i]] == s.clients;
  }

  lemma ExitKeeps(env: Env, s: State, l: LeaseId)
    requires Linked(env, s) && l in s.tasks && s.tasks[l].progress.Returned? && s.tasks[l].relay in s.clients
    ensures Linked(env, Exit(s, l))
  {
    var task := s.tasks[l];
    assert TaskSound(s, l) && ReadsInOrder(env, task);
    if task.progress.failed {
      var task' := task.(progress := Exited(true));
      ServiceInbox(s, l, task', [[]]);
      TaskTurns(env, s, l, task', [[]]);
    } else {
      TaskQuiet(env, s, l, task.(progress := Exited(false)));
    }
  }
}
