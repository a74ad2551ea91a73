/** That nobody gets stuck: whatever a client, a task or the outside world has
    ready for the proxy, there is a step that takes it up. */
module ProxyProgress {
  import opened Wrappers
  import opened BigEndian
  import opened Code
  import opened Commands
  import opened Session
  import opened Proxy
  import opened ProxyInvariant
  import opened ProxyRuns
  import opened ProxyTasks
  import ConnectProxy
  import Translate
  import WebTransport

  ghost predicate Serves(s: State, sid: SessionId) {
    sid in s.clients && s.clients[sid].phase.Serving?
  }

  /** A WebTransport session has read something it has not dealt with: data for
      its lease, a whole command, or the beginning of one that is too long. */
  ghost predicate HasWork(s: State, sid: SessionId) {
    sid in s.clients && s.clients[sid].transport == OverWebTransport &&
    if s.clients[sid].lease.Some? then BufOf(s, sid) != [] else 10 in BufOf(s, sid) || |BufOf(s, sid)| >= 4096
  }

  /** What a command needs to go through: a new lease and a pair not in use. */
  ghost predicate CanChoose(s: State, choice: Choice) {
    && choice.lease !in s.tasks && choice.later >= s.now
    && IsClientAddress(choice.address)
    && choice.address !in s.net.byAddress && choice.passcode !in s.net.byPasscode
  }

  lemma ChoiceGoes(s: State, plan: Plan, choice: Choice)
    requires CanChoose(s, choice)
    ensures ChoiceAllowed(s, plan, choice)
  {
  }

  /** The step that a session with work to do takes next: it hands all its data
      to its lease, runs its first line, or gives up an endless one. */
  lemma WorkGoesOn(env: Env, s: State, sid: SessionId, choice: Choice) returns (step: Step)
    requires Reachable(env, s) && Serves(s, sid) && HasWork(s, sid) && CanChoose(s, choice)
    ensures Enabled(env, s, step)
    ensures var buf := BufOf(s, sid);
      if s.clients[sid].lease.Some? then step == Data(sid, StreamChunk, buf)
      else if 10 in buf then
        step.Command? && step.sid == sid && step.choice == choice && step.raw + [10] <= buf && 10 !in step.raw
      else step == Overgrown(sid)
  {
    var buf := BufOf(s, sid);
    CanAlwaysAnswer(env, s, sid);
    if s.clients[sid].lease.Some? {
      step := Data(sid, StreamChunk, buf);
    } else if 10 in buf {
      var n := WebTransport.IndexOf(10, buf).value;
      step := Command(sid, buf[..n], choice);
      ChoiceGoes(s, PlanFor(env, s.clients[sid], sid, buf[..n]), choice);
      assert buf[..n] + [10] == buf[..n + 1];
    } else {
      step := Overgrown(sid);
    }
  }

  /** A session without such work takes whatever comes: the next message or the
      closing of its relay, and data of each kind its transport has. */
  lemma OthersGoOn(env: Env, s: State, sid: SessionId, link: Link, data: Bytes)
    requires Reachable(env, s) && Serves(s, sid) && !HasWork(s, sid)
    ensures s.clients[sid].taken < |s.clients[sid].inbox| || RelayClosed(s, sid) ==>
      Enabled(env, s, ReadRelay(sid, link))
    ensures s.clients[sid].transport == OverWebSocket ==> Enabled(env, s, Data(sid, BinaryMessage, data))
    ensures s.clients[sid].transport == OverWebTransport ==>
      && Enabled(env, s, Data(sid, DatagramMessage, data)) && Enabled(env, s, AcceptStream(sid))
      && (s.clients[sid].send && data != [] ==>
            if s.clients[sid].lease.Some? then Enabled(env, s, Data(sid, StreamChunk, data))
            else Enabled(env, s, Buffer(sid, data)))
  {
  }

  /** A WebSocket session takes any command, any session can be disconnected, a
      claimed port becomes a lease, a session that has left is dropped, and a
      new one can be opened. */
  lemma LivesGoOn(env: Env, s: State, sid: SessionId, raw: Bytes, choice: Choice, transport: Transport)
    requires Reachable(env, s) && CanChoose(s, choice)
    ensures sid !in s.clients ==> Enabled(env, s, Open(sid, transport))
    ensures Serves(s, sid) ==> Enabled(env, s, Disconnect(sid))
    ensures Serves(s, sid) && s.clients[sid].transport == OverWebSocket ==> Enabled(env, s, Command(sid, raw, choice))
    ensures sid in s.clients && s.clients[sid].phase.Binding? ==>
      Enabled(env, s, BindDone(sid, choice.lease, choice.answered))
    ensures sid in s.clients && s.clients[sid].phase.Ending? ==> Enabled(env, s, DropSession(sid))
  {
    CanAlwaysAnswer(env, s, sid);
    if Serves(s, sid) {
      ChoiceGoes(s, PlanFor(env, s.clients[sid], sid, raw), choice);
    }
  }

  /** A session on a WebSocket, or one that has read something, has somewhere
      to answer. */
  ghost predicate CanAnswer(s: State, sid: SessionId) {
    && (BufOf(s, sid) != [] ==> sid in s.clients && s.clients[sid].send)
    && (sid in s.clients && s.clients[sid].transport == OverWebSocket ==> s.clients[sid].send)
  }

  lemma CanAlwaysAnswer(env: Env, s: State, sid: SessionId)
    requires Reachable(env, s)
    ensures CanAnswer(s, sid)
  {
    var trace, steps :| IsRun(env, trace, steps) && trace[|steps|] == s;
    AlwaysAnswers(env, trace, steps, |steps|, sid);
  }

  /** The session has the same transport and as good a place to answer. */
  ghost predicate AnswersOn(s: State, t: State, sid: SessionId) {
    && t.bufs == s.bufs && (sid in t.clients <==> sid in s.clients)
    && (sid in s.clients ==>
          t.clients[sid].transport == s.clients[sid].transport && t.clients[sid].send == s.clients[sid].send)
  }

  lemma AnsweredOn(env: Env, c: Client, sid: SessionId, call: Call, answer: Answer, answered: bool)
    ensures AfterCommand(env, c, sid, call, answer, answered).transport == c.transport
    ensures AfterCommand(env, c, sid, call, answer, answered).send == c.send
  {
  }

  lemma ServeAnswers(env: Env, s: State, i: SessionId, call: Call, choice: Choice, sid: SessionId)
    requires i in s.clients
    ensures AnswersOn(s, Serve(env, s, i, call, choice), sid)
  {
    var c := s.clients[i];
    AnsweredOn(env, c, i, call, Assigned(choice.address, choice.passcode), choice.answered);
    AnsweredOn(env, c, i, call, Refused, choice.answered);
    AnsweredOn(env, c, i, call, Granted(choice.lease), choice.answered);
  }

  lemma CommandAnswers(env: Env, s: State, i: SessionId, raw: Bytes, choice: Choice, sid: SessionId)
    requires i in s.clients
    ensures AnswersOn(s, RunCommand(env, s, i, raw, choice), sid)
  {
    match PlanFor(env, s.clients[i], i, raw)
    case Ask(call) => ServeAnswers(env, s, i, call, choice, sid);
    case _ =>
  }

  lemma BindDoneAnswers(env: Env, s: State, i: SessionId, l: LeaseId, answered: bool, sid: SessionId)
    requires i in s.clients && s.clients[i].phase.Binding?
    ensures AnswersOn(s, FinishBind(env, s, i, l, answered), sid)
  {
  }

  lemma DataAnswers(s: State, i: SessionId, via: Via, raw: Bytes, sid: SessionId)
    requires i in s.clients && CanAnswer(s, sid)
    ensures CanAnswer(HandData(s, i, via, raw), sid)
  {
  }

  lemma FewerBytes(s: State, bufs: map<SessionId, Bytes>, sid: SessionId)
    requires CanAnswer(s, sid)
    requires sid in bufs && bufs[sid] != [] ==> BufOf(s, sid) != []
    ensures CanAnswer(s.(bufs := bufs), sid)
  {
  }

  lemma LineTakenAnswers(s: State, t: State, i: SessionId, raw: Bytes, sid: SessionId)
    requires CanAnswer(s, sid) && AnswersOn(s, t, sid)
    ensures CanAnswer(t.(bufs := LineTaken(s, i, raw)), sid)
  {
  }

  lemma RestAnswers(env: Env, s: State, step: Step, sid: SessionId)
    requires Enabled(env, s, step) && CanAnswer(s, sid)
    requires !step.Command? && !step.Data? && !step.BindDone? && !TaskTurn(step)
    ensures CanAnswer(Next(env, s, step), sid)
  {
  }

  lemma TurnAnswers(env: Env, s: State, step: Step, sid: SessionId)
    requires Enabled(env, s, step) && CanAnswer(s, sid) && TaskTurn(step)
    ensures CanAnswer(Next(env, s, step), sid)
  {
  }

  lemma StepAnswers(env: Env, s: State, step: Step, sid: SessionId)
    requires Enabled(env, s, step) && CanAnswer(s, sid)
    ensures CanAnswer(Next(env, s, step), sid)
  {
    if step.Command? {
      CommandAnswers(env, s, step.sid, step.raw, step.choice, sid);
      LineTakenAnswers(s, RunCommand(env, s, step.sid, step.raw, step.choice), step.sid, step.raw, sid);
    } else if step.Data? {
      DataAnswers(s, step.sid, step.via, step.raw, sid);
      FewerBytes(HandData(s, step.sid, step.via, step.raw), Next(env, s, step).bufs, sid);
    } else if step.BindDone? {
      BindDoneAnswers(env, s, step.sid, step.lease, step.answered, sid);
    } else if TaskTurn(step) {
      TurnAnswers(env, s, step, sid);
    } else {
      RestAnswers(env, s, step, sid);
    }
  }

  lemma {:induction false} AlwaysAnswers(env: Env, trace: seq<State>, steps: seq<Step>, n: nat, sid: SessionId)
    requires IsRun(env, trace, steps) && n < |trace|
    ensures CanAnswer(trace[n], sid)
  {
    if n > 0 {
      AlwaysAnswers(env, trace, steps, n - 1, sid);
      assert StepAt(env, trace, steps, n - 1);
      StepAnswers(env, trace[n - 1], steps[n - 1], sid);
    }
  }

  // ----- tasks -----

  /** A translation task at work takes up the next datagram however the system
      answers, then the end of its lease, and at any time a datagram from
      outside that fits its buffer or an error. */
  lemma TranslationGoesOn(
    env: Env, s: State, l: LeaseId, opens: Option<Translate.SocketId>, sends: bool, v6: bool,
    received: Option<(SocketAddr, Bytes)>)
    requires AtWork(s, l) && s.tasks[l].job.Translating?
    ensures var outgoing := s.tasks[l].job.outgoing;
      if outgoing != [] then
        Enabled(env, s, TranslateTurn(l, Translate.Outgoing(outgoing[0].0, outgoing[0].1, opens, sends)))
      else l !in s.leases ==> Enabled(env, s, TranslateTurn(l, Translate.LeaseDropped))
    ensures received == None || |received.value.1| <= 4096 ==>
      Enabled(env, s, TranslateTurn(l, Translate.Incoming(v6, received)))
  {
  }

  /** A CONNECT task at work takes up the next chunk however the network
      answers, then the end of its lease, and once the header is accepted
      anything that the remote end does. */
  lemma ConnectionGoesOn(env: Env, s: State, l: LeaseId, connects: bool, takes: nat, data: Bytes)
    requires Reachable(env, s) && AtWork(s, l) && s.tasks[l].job.Connecting?
    ensures var job := s.tasks[l].job;
      if job.read < |job.given| then
        Enabled(env, s, ConnectTurn(l, ConnectProxy.Chunk(job.given[job.read], connects, takes)))
      else l !in s.leases ==> Enabled(env, s, ConnectTurn(l, ConnectProxy.ClientGone))
    ensures ConnectProxy.Judge(env.hosts, s.tasks[l].job.h.stream).Accepted? <==>
      Enabled(env, s, ConnectTurn(l, ConnectProxy.RemoteData(data)))
    ensures ConnectProxy.Judge(env.hosts, s.tasks[l].job.h.stream).Accepted? <==>
      Enabled(env, s, ConnectTurn(l, ConnectProxy.RemoteError))
  {
    EstablishedIffOpen(env, s, l);
  }

  /** A resolver task at work answers the next query whatever the lookup finds,
      and ends with its lease; and a task that has returned exits. */
  lemma ResolutionGoesOn(env: Env, s: State, l: LeaseId, found: Option<seq<IpAddr>>)
    requires Reachable(env, s) && l in s.tasks
    ensures AtWork(s, l) && s.tasks[l].job.Resolving? ==>
      var job := s.tasks[l].job;
      if |job.answered| < |job.asked| then Enabled(env, s, ResolveTurn(l, found))
      else l !in s.leases ==> Enabled(env, s, ResolveEnds(l))
    ensures s.tasks[l].progress.Returned? ==> Enabled(env, s, TaskExit(l))
  {
    ReachableKeeps(env, s);
    assert TaskSound(s, l);
  }
}
