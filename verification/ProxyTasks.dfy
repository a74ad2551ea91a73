/** The tasks behind the leases are the loops of `Translate` and `ConnectProxy`,
    run over the turns they take between all other steps; and how a service
    task ends for its session. */
module ProxyTasks {
  import opened Wrappers
  import opened BigEndian
  import opened Code
  import opened Commands
  import opened Proxy
  import opened ProxyInvariant
  import opened ProxyRuns
  import opened ProxySafety
  import opened ProxyHistory
  import ConnectProxy
  import DnsChoice
  import DnsProxy
  import Translate

  /** The turn that a step is for the translation task of `l`, and whether the
      task's session reads its relay at that moment. */
  function TranslateTurnBy(s: State, step: Step, l: LeaseId): seq<(Translate.Event, bool)> {
    match step
    case TranslateTurn(j, e) => if j == l && l in s.tasks then [(e, Hears(s, s.tasks[l].relay))] else []
    case _ => []
  }

  function ConnectTurnBy(s: State, step: Step, l: LeaseId): seq<(ConnectProxy.Event, bool)> {
    match step
    case ConnectTurn(j, e) => if j == l && l in s.tasks then [(e, Hears(s, s.tasks[l].relay))] else []
    case _ => []
  }

  /** A translation goes on with the turn, or begins with the task. */
  ghost predicate TranslationGoes(s: State, step: Step, t: State, l: LeaseId) {
    l in t.tasks && t.tasks[l].job.Translating? ==>
      if l !in s.tasks then t.tasks[l].job.t == Translate.NEW_TRANSLATOR
      else
        && s.tasks[l].job.Translating?
        && var turn := TranslateTurnBy(s, step, l);
           t.tasks[l].job.t
           == if turn == [] then s.tasks[l].job.t else Translate.Step(s.tasks[l].job.t, turn[0].0, turn[0].1).0
  }

  ghost predicate ConnectionGoes(env: Env, s: State, step: Step, t: State, l: LeaseId) {
    l in t.tasks && t.tasks[l].job.Connecting? ==>
      if l !in s.tasks then t.tasks[l].job.h == ConnectProxy.Run(env.hosts, [])
      else
        && s.tasks[l].job.Connecting?
        && var turn := ConnectTurnBy(s, step, l);
           t.tasks[l].job.h
           == if turn == [] then s.tasks[l].job.h
              else ConnectProxy.Advance(env.hosts, s.tasks[l].job.h, turn[0].0, turn[0].1)
  }

  ghost predicate JobGoes(env: Env, s: State, step: Step, t: State, l: LeaseId) {
    TranslationGoes(s, step, t, l) && ConnectionGoes(env, s, step, t, l)
  }

  lemma ServeJob(env: Env, s: State, i: SessionId, raw: Bytes, call: Call, choice: Choice, l: LeaseId)
    requires i in s.clients && choice.lease !in s.tasks
    ensures JobGoes(env, s, Command(i, raw, choice), Serve(env, s, i, call, choice), l)
  {
  }

  lemma CommandJob(env: Env, s: State, i: SessionId, raw: Bytes, choice: Choice, l: LeaseId)
    requires i in s.clients && choice.lease !in s.tasks
    ensures JobGoes(env, s, Command(i, raw, choice), RunCommand(env, s, i, raw, choice), l)
  {
    match PlanFor(env, s.clients[i], i, raw)
    case Ask(call) => ServeJob(env, s, i, raw, call, choice, l);
    case _ =>
  }

  lemma DataJob(env: Env, s: State, i: SessionId, via: Via, raw: Bytes, l: LeaseId)
    requires i in s.clients
    ensures JobGoes(env, s, Data(i, via, raw), HandData(s, i, via, raw), l)
  {
  }

  lemma TurnJob(env: Env, s: State, step: Step, l: LeaseId)
    requires Enabled(env, s, step) && TaskTurn(step)
    ensures JobGoes(env, s, step, Next(env, s, step), l)
  {
  }

  lemma OtherJob(env: Env, s: State, step: Step, l: LeaseId)
    requires Enabled(env, s, step) && !TaskTurn(step) && !step.Command? && !step.Data?
    ensures JobGoes(env, s, step, Next(env, s, step), l)
  {
  }

  lemma JobStep(env: Env, s: State, step: Step, l: LeaseId)
    requires Enabled(env, s, step)
    ensures JobGoes(env, s, step, Next(env, s, step), l)
  {
    if TaskTurn(step) {
      TurnJob(env, s, step, l);
    } else if step.Command? {
      CommandJob(env, s, step.sid, step.raw, step.choice, l);
    } else if step.Data? {
      DataJob(env, s, step.sid, step.via, step.raw, l);
    } else {
      OtherJob(env, s, step, l);
    }
  }

  lemma JobEdge(env: Env, trace: seq<State>, steps: seq<Step>, n: nat, l: LeaseId)
    requires IsRun(env, trace, steps) && n < |steps|
    ensures JobGoes(env, trace[n], steps[n], trace[n + 1], l)
    ensures TaskKept(trace[n], trace[n + 1], l)
  {
    assert StepAt(env, trace, steps, n);
    JobStep(env, trace[n], steps[n], l);
    TaskEdge(env, trace, steps, n, l);
  }

  /** The turns of the task of `l` in the first `n` steps of a run. */
  function TranslateTurns(trace: seq<State>, steps: seq<Step>, n: nat, l: LeaseId): seq<(Translate.Event, bool)>
    requires n <= |steps| && |trace| == |steps| + 1
  {
    if n == 0 then [] else TranslateTurns(trace, steps, n - 1, l) + TranslateTurnBy(trace[n - 1], steps[n - 1], l)
  }

  function ConnectTurns(trace: seq<State>, steps: seq<Step>, n: nat, l: LeaseId): seq<(ConnectProxy.Event, bool)>
    requires n <= |steps| && |trace| == |steps| + 1
  {
    if n == 0 then [] else ConnectTurns(trace, steps, n - 1, l) + ConnectTurnBy(trace[n - 1], steps[n - 1], l)
  }

  ghost predicate IsTranslation(trace: seq<State>, steps: seq<Step>, n: nat, l: LeaseId) {
    && n < |trace| == |steps| + 1
    && var turns := TranslateTurns(trace, steps, n, l);
       if l !in trace[n].tasks then turns == []
       else trace[n].tasks[l].job.Translating? ==> trace[n].tasks[l].job.t == Translate.Run(turns)
  }

  lemma TranslationEdge(env: Env, trace: seq<State>, steps: seq<Step>, n: nat, l: LeaseId)
    requires n < |steps| && IsTranslation(trace, steps, n, l)
    requires TranslationGoes(trace[n], steps[n], trace[n + 1], l) && TaskKept(trace[n], trace[n + 1], l)
    ensures IsTranslation(trace, steps, n + 1, l)
  {
    var turns, turn := TranslateTurns(trace, steps, n, l), TranslateTurnBy(trace[n], steps[n], l);
    if turn == [] {
      assert turns + turn == turns;
    } else {
      assert (turns + turn)[..|turns|] == turns && (turns + turn)[|turns|] == turn[0];
    }
  }

  /** A translation task is the loop of `Translate`, run over its own turns and
      nothing else, whatever happens between them. */
  lemma TranslationIsRun(env: Env, trace: seq<State>, steps: seq<Step>, n: nat, l: LeaseId)
    requires IsRun(env, trace, steps) && n < |trace|
    ensures IsTranslation(trace, steps, n, l)
  {
    forall k | 0 <= k < n && IsTranslation(trace, steps, k, l) ensures IsTranslation(trace, steps, k + 1, l) {
      JobEdge(env, trace, steps, k, l);
      TranslationEdge(env, trace, steps, k, l);
    }
    Along(n, (k: nat) => IsTranslation(trace, steps, k, l));
  }

  ghost predicate IsConnection(hosts: set<string>, trace: seq<State>, steps: seq<Step>, n: nat, l: LeaseId) {
    && n < |trace| == |steps| + 1
    && var turns := ConnectTurns(trace, steps, n, l);
       if l !in trace[n].tasks then turns == []
       else trace[n].tasks[l].job.Connecting? ==> trace[n].tasks[l].job.h == ConnectProxy.Run(hosts, turns)
  }

  lemma ConnectionEdge(env: Env, trace: seq<State>, steps: seq<Step>, n: nat, l: LeaseId)
    requires n < |steps| && IsConnection(env.hosts, trace, steps, n, l)
    requires ConnectionGoes(env, trace[n], steps[n], trace[n + 1], l) && TaskKept(trace[n], trace[n + 1], l)
    ensures IsConnection(env.hosts, trace, steps, n + 1, l)
  {
    var turns, turn := ConnectTurns(trace, steps, n, l), ConnectTurnBy(trace[n], steps[n], l);
    if turn == [] {
      assert turns + turn == turns;
    } else {
      assert (turns + turn)[..|turns|] == turns && (turns + turn)[|turns|] == turn[0];
    }
  }

  /** A CONNECT task is the loop of `ConnectProxy`, run over its own turns. */
  lemma ConnectionIsRun(env: Env, trace: seq<State>, steps: seq<Step>, n: nat, l: LeaseId)
    requires IsRun(env, trace, steps) && n < |trace|
    ensures IsConnection(env.hosts, trace, steps, n, l)
  {
    forall k | 0 <= k < n && IsConnection(env.hosts, trace, steps, k, l)
      ensures IsConnection(env.hosts, trace, steps, k + 1, l)
    {
      JobEdge(env, trace, steps, k, l);
      ConnectionEdge(env, trace, steps, k, l);
    }
    Along(n, (k: nat) => IsConnection(env.hosts, trace, steps, k, l));
  }

  lemma WorksWhileAlive(env: Env, s: State, l: LeaseId)
    requires Inv(env, s) && l in s.tasks && s.tasks[l].job.Translating?
    ensures AtWork(s, l) <==> s.tasks[l].job.t.running
  {
    assert TaskSound(s, l);
  }

  /** So what a task has sent to the open internet, over which sockets and to
      whom, and whether it still works, is what its own turns say. */
  lemma InternetTrafficIsExact(env: Env, trace: seq<State>, steps: seq<Step>, n: nat, l: LeaseId)
    requires IsRun(env, trace, steps) && n < |trace|
    requires l in trace[n].tasks && trace[n].tasks[l].job.Translating?
    ensures var turns := TranslateTurns(trace, steps, n, l);
      && trace[n].tasks[l].job.t.wire == Translate.SentOut(turns)
      && trace[n].tasks[l].job.t.v4 == Translate.Opened(true, turns)
      && trace[n].tasks[l].job.t.v6 == Translate.Opened(false, turns)
      && (AtWork(trace[n], l) <==> Translate.Alive(turns))
  {
    TranslationIsRun(env, trace, steps, n, l);
    Translate.RunIsExact(TranslateTurns(trace, steps, n, l));
    RunKeeps(env, trace, steps, n);
    WorksWhileAlive(env, trace[n], l);
  }

  /** How far a CONNECT task has come. */
  function AccountIn(h: ConnectProxy.History): ConnectProxy.Account {
    ConnectProxy.Account(h.t.status, h.stream, h.t.upstream, h.relayed)
  }

  function ProgressOf(p: Progress): ConnectProxy.Status {
    match p
    case Working => ConnectProxy.Running
    case Returned(failed) => if failed then ConnectProxy.Failed else ConnectProxy.Finished
    case Exited(failed) => if failed then ConnectProxy.Failed else ConnectProxy.Finished
  }

  lemma ProgressIsStatus(env: Env, s: State, l: LeaseId)
    requires Inv(env, s) && l in s.tasks && s.tasks[l].job.Connecting?
    ensures s.tasks[l].job.h.t.status == ProgressOf(s.tasks[l].progress)
  {
    assert TaskSound(s, l);
  }

  /** And how a CONNECT task stands, what it has sent upstream and what on the
      relay is what the account of its own turns says. */
  lemma ConnectionIsAccounted(env: Env, trace: seq<State>, steps: seq<Step>, n: nat, l: LeaseId)
    requires IsRun(env, trace, steps) && n < |trace|
    requires l in trace[n].tasks && trace[n].tasks[l].job.Connecting?
    ensures var a := ConnectProxy.AccountOf(env.hosts, ConnectTurns(trace, steps, n, l));
      && AccountIn(trace[n].tasks[l].job.h) == a
      && ProgressOf(trace[n].tasks[l].progress) == a.status
  {
    ConnectionIsRun(env, trace, steps, n, l);
    ConnectProxy.RunIsAccounted(env.hosts, ConnectTurns(trace, steps, n, l));
    RunKeeps(env, trace, steps, n);
    ProgressIsStatus(env, trace[n], l);
  }

  // ----- one turn of a service task -----

  ghost predicate ConnectTurned(env: Env, s: State, t: State, l: LeaseId, e: ConnectProxy.Event)
    requires l in s.tasks && s.tasks[l].job.Connecting?
  {
    var a, open := AccountIn(s.tasks[l].job.h), Hears(s, s.tasks[l].relay);
    var finishes := ConnectProxy.Finishes(env.hosts, a, e);
    var fails := ConnectProxy.Fails(env.hosts, a, e, open);
    && l in t.tasks && t.tasks[l].job.Connecting? && t.tasks[l].relay == s.tasks[l].relay
    && t == s.(tasks := s.tasks[l := t.tasks[l]], clients := t.clients)
    && t.tasks[l].progress == (if finishes then Returned(false) else if fails then Returned(true) else Working)
    && t.tasks[l].job.h.t.upstream == a.upstream + ConnectProxy.GoesUpstream(env.hosts, a, e)
    && Sends(s, t, s.tasks[l].relay, if finishes || fails then [] else ConnectProxy.GoesOnRelay(env.hosts, a, e))
  }

  /** These messages have joined the relay of `r` and nothing else has changed
      for any session. */
  ghost predicate Sends(s: State, t: State, r: SessionId, messages: seq<Bytes>) {
    && t.clients.Keys == s.clients.Keys
    && forall i | i in s.clients ::
         t.clients[i] == s.clients[i].(inbox := s.clients[i].inbox + if i == r then messages else [])
  }

  lemma PostSends(s: State, r: SessionId, messages: seq<Bytes>)
    requires messages == [] || Hears(s, r)
    ensures Sends(s, Post(s, r, messages), r, messages)
    ensures Post(s, r, messages) == s.(clients := Post(s, r, messages).clients)
  {
    forall i | i in s.clients
      ensures Post(s, r, messages).clients[i]
        == s.clients[i].(inbox := s.clients[i].inbox + if i == r then messages else [])
    {
      assert s.clients[i].inbox + [] == s.clients[i].inbox;
    }
  }

  lemma TurnAccounted(hosts: set<string>, h: ConnectProxy.History, e: ConnectProxy.Event, open: bool)
    requires ConnectProxy.Refines(hosts, h.t, h.stream, h.relayed, h.remote)
    ensures AccountIn(ConnectProxy.Advance(hosts, h, e, open)) == ConnectProxy.Entered(hosts, AccountIn(h), e, open)
    ensures !open ==> ConnectProxy.Step(hosts, h.t, e, open).1 == []
  {
    ConnectProxy.StepAccounted(hosts, h, AccountIn(h), e, open);
  }

  lemma SameTail<T>(a: seq<T>, b: seq<T>, c: seq<T>)
    requires a + b == a + c
    ensures b == c
  {
    assert (a + b)[|a|..] == b && (a + c)[|a|..] == c;
  }

  lemma ConnectSends(hosts: set<string>, h: ConnectProxy.History, e: ConnectProxy.Event, open: bool)
    requires ConnectProxy.Refines(hosts, h.t, h.stream, h.relayed, h.remote) && h.t.status == ConnectProxy.Running
    ensures var a := AccountIn(h);
      ConnectProxy.Step(hosts, h.t, e, open).1
      == if ConnectProxy.Finishes(hosts, a, e) || ConnectProxy.Fails(hosts, a, e, open) then []
         else ConnectProxy.GoesOnRelay(hosts, a, e)
  {
    TurnAccounted(hosts, h, e, open);
    var a := AccountIn(h);
    var ends := ConnectProxy.Finishes(hosts, a, e) || ConnectProxy.Fails(hosts, a, e, open);
    SameTail(h.relayed, ConnectProxy.Step(hosts, h.t, e, open).1,
      if ends then [] else ConnectProxy.GoesOnRelay(hosts, a, e));
  }

  lemma ConnectingIsSound(env: Env, s: State, l: LeaseId)
    requires Reachable(env, s) && l in s.tasks && s.tasks[l].job.Connecting?
    ensures var h := s.tasks[l].job.h;
      && ConnectProxy.Refines(env.hosts, h.t, h.stream, h.relayed, h.remote)
      && h.t.status == ProgressOf(s.tasks[l].progress)
  {
    ReachableKeeps(env, s);
    assert ReadsInOrder(env, s.tasks[l]);
    ProgressIsStatus(env, s, l);
  }

  lemma TurnSends(env: Env, s: State, l: LeaseId, e: ConnectProxy.Event)
    requires AtWork(s, l) && s.tasks[l].job.Connecting? && s.tasks[l].job.h.t.status == ConnectProxy.Running
    requires var h := s.tasks[l].job.h; ConnectProxy.Refines(env.hosts, h.t, h.stream, h.relayed, h.remote)
    ensures ConnectTurned(env, s, TurnConnect(env, s, l, e), l, e)
  {
    var task, open := s.tasks[l], Hears(s, s.tasks[l].relay);
    TurnAccounted(env.hosts, task.job.h, e, open);
    ConnectSends(env.hosts, task.job.h, e, open);
    PostSends(s, task.relay, ConnectProxy.Step(env.hosts, task.job.h.t, e, open).1);
  }

  /** A turn of a CONNECT task: it returns well exactly when the remote end
      closes an established connection, fails exactly in the ways of `Fails`,
      sends upstream and on the relay exactly what it should, and touches
      nothing else. */
  lemma ConnectTurnIsExact(env: Env, s: State, l: LeaseId, e: ConnectProxy.Event)
    requires Reachable(env, s) && Enabled(env, s, ConnectTurn(l, e))
    ensures ConnectTurned(env, s, Next(env, s, ConnectTurn(l, e)), l, e)
  {
    ConnectingIsSound(env, s, l);
    TurnSends(env, s, l, e);
  }

  /** What a client decodes from the message is the good choice among what the
      lookup has found, if it has sent a query, and an empty list if not. */
  ghost predicate AnswersQuery(raw: Bytes, found: Option<seq<IpAddr>>, m: Bytes) {
    DnsProxy.DecodeReply(m).Some? &&
    var got := DnsProxy.DecodeReply(m).value;
    && (forall host, kind | DnsProxy.IsQuery(raw, host, kind) ::
          DnsChoice.GoodChoice(kind, if found.Some? then found.value else [], got))
    && ((forall host, kind :: !DnsProxy.IsQuery(raw, host, kind)) ==> got == [])
  }

  lemma AnswerAnswers(raw: Bytes, found: Option<seq<IpAddr>>)
    ensures AnswersQuery(raw, found, DnsProxy.Answer(raw, found))
  {
    if host, kind :| DnsProxy.IsQuery(raw, host, kind) {
      forall host, kind | DnsProxy.IsQuery(raw, host, kind)
        ensures DnsProxy.DecodeReply(DnsProxy.Answer(raw, found)).Some?
        ensures DnsChoice.GoodChoice(kind, if found.Some? then found.value else [],
          DnsProxy.DecodeReply(DnsProxy.Answer(raw, found)).value)
      {
        DnsChoice.AnswerIsCorrect(raw, host, kind, found);
      }
    } else {
      DnsChoice.BadQueryGetsNothing(raw, found);
    }
  }

  /** A turn of a resolver task answers the next query that has been asked, or
      finds its session gone and fails. */
  lemma ResolveTurnIsExact(env: Env, s: State, l: LeaseId, found: Option<seq<IpAddr>>) returns (m: Bytes)
    requires Enabled(env, s, ResolveTurn(l, found))
    ensures var job, t := s.tasks[l].job, Next(env, s, ResolveTurn(l, found));
      var raw := job.asked[|job.answered|];
      && AnswersQuery(raw, found, m)
      && if Hears(s, s.tasks[l].relay) then
           && Sends(s, t, s.tasks[l].relay, [m])
           && t == s.(clients := t.clients,
                tasks := s.tasks[l := s.tasks[l].(job := Resolving(job.asked, job.answered + [(raw, found)]))])
         else t == s.(tasks := s.tasks[l := s.tasks[l].(progress := Returned(true))])
  {
    var job := s.tasks[l].job;
    var raw := job.asked[|job.answered|];
    m := DnsProxy.Answer(raw, found);
    AnswerAnswers(raw, found);
    if Hears(s, s.tasks[l].relay) {
      PostSends(s, s.tasks[l].relay, [m]);
    }
  }

  // ----- how a service ends -----

  /** A task that has returned can always exit. If it failed it wakes its
      session with one empty message, and if it did not it adds nothing. */
  lemma ExitIsExact(env: Env, s: State, l: LeaseId)
    requires l in s.tasks && s.tasks[l].progress.Returned?
    ensures Enabled(env, s, TaskExit(l))
    ensures var t, failed := Next(env, s, TaskExit(l)), s.tasks[l].progress.failed;
      && t == s.(clients := t.clients, tasks := s.tasks[l := s.tasks[l].(progress := Exited(failed))])
      && Sends(s, t, s.tasks[l].relay, if failed && Hears(s, s.tasks[l].relay) then [[]] else [])
  {
    PostSends(s, s.tasks[l].relay, if s.tasks[l].progress.failed && Hears(s, s.tasks[l].relay) then [[]] else []);
  }

  /** The session linked to the task. */
  ghost predicate LinkedTo(s: State, sid: SessionId, l: LeaseId) {
    && sid in s.clients && Listening(s.clients[sid]) && s.clients[sid].lease == Some(l)
    && l in s.tasks && !s.tasks[l].job.Translating?
  }

  lemma LinkIsServed(env: Env, s: State, sid: SessionId, l: LeaseId)
    requires Reachable(env, s) && LinkedTo(s, sid, l)
    ensures l in s.leases && s.leases[l].key.None? && s.tasks[l].relay == sid && Hears(s, sid)
    ensures RelayClosed(s, sid) <==> s.tasks[l].progress.Exited? && s.clients[sid].taken == |s.clients[sid].inbox|
  {
    ReachableKeeps(env, s);
    assert HolderSound(s, sid) && ClientSound(s.clients[sid]) && LeaseServed(s, l);
    RelayClosedIffServiceEnded(env, s, sid);
  }

  /** When the remote end closes an established connection, its task returns and
      exits without adding anything to the relay; the session that has read all
      there is then finds the relay closed. */
  lemma RemoteCloseIsSeen(env: Env, s: State, sid: SessionId, l: LeaseId)
    requires Reachable(env, s) && LinkedTo(s, sid, l) && Enabled(env, s, ConnectTurn(l, ConnectProxy.RemoteData([])))
    ensures var t := Next(env, s, ConnectTurn(l, ConnectProxy.RemoteData([])));
      && Enabled(env, t, TaskExit(l))
      && var u := Next(env, t, TaskExit(l));
         && LinkedTo(u, sid, l) && u.clients == s.clients
         && (RelayClosed(u, sid) <==> s.clients[sid].taken == |s.clients[sid].inbox|)
  {
    var e := ConnectProxy.RemoteData([]);
    var t := Next(env, s, ConnectTurn(l, e));
    LinkIsServed(env, s, sid, l);
    EstablishedIffOpen(env, s, l);
    ConnectTurnIsExact(env, s, l, e);
    NothingSent(s, t, sid);
    ReachableNext(env, s, ConnectTurn(l, e));
    ExitIsExact(env, t, l);
    var u := Next(env, t, TaskExit(l));
    NothingSent(t, u, sid);
    ReachableNext(env, t, TaskExit(l));
    LinkIsServed(env, u, sid, l);
  }

  lemma NothingSent(s: State, t: State, r: SessionId)
    requires Sends(s, t, r, [])
    ensures t.clients == s.clients
  {
    forall i | i in s.clients ensures t.clients[i] == s.clients[i] {
      assert s.clients[i].inbox + [] == s.clients[i].inbox;
    }
  }

  /** The task reads from the remote end exactly once the header has been
      accepted. */
  lemma EstablishedIffOpen(env: Env, s: State, l: LeaseId)
    requires Reachable(env, s) && AtWork(s, l) && s.tasks[l].job.Connecting?
    ensures var h := s.tasks[l].job.h;
      h.t.connRead <==> ConnectProxy.Judge(env.hosts, h.stream).Accepted?
  {
    ConnectingIsSound(env, s, l);
  }

  /** When a CONNECT task fails, its session gets one empty message behind all
      that was relayed, and the lease is no longer live. */
  lemma FailureIsSeen(env: Env, s: State, sid: SessionId, l: LeaseId, e: ConnectProxy.Event)
    requires Reachable(env, s) && LinkedTo(s, sid, l) && Enabled(env, s, ConnectTurn(l, e))
    requires ConnectProxy.Fails(env.hosts, AccountIn(s.tasks[l].job.h), e, true)
    ensures var t := Next(env, s, ConnectTurn(l, e));
      && Enabled(env, t, TaskExit(l))
      && var u := Next(env, t, TaskExit(l));
         && LinkedTo(u, sid, l) && !IsLive(u, l)
         && u.clients == s.clients[sid := s.clients[sid].(inbox := s.clients[sid].inbox + [[]])]
  {
    var t := Next(env, s, ConnectTurn(l, e));
    LinkIsServed(env, s, sid, l);
    ConnectTurnIsExact(env, s, l, e);
    NothingSent(s, t, sid);
    ReachableNext(env, s, ConnectTurn(l, e));
    ExitIsExact(env, t, l);
    var u := Next(env, t, TaskExit(l));
    forall i | i in s.clients && i != sid ensures u.clients[i] == s.clients[i] {
      assert s.clients[i].inbox + [] == s.clients[i].inbox;
    }
  }
}
