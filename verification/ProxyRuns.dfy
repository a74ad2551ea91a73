/** The invariant holds in every state of every run. */
module ProxyRuns {
  import opened Wrappers
  import opened BigEndian
  import opened Code
  import opened NetworkState
  import opened Commands
  import opened Proxy
  import opened ProxyInvariant
  import opened ProxySteps
  import opened ProxySessions

  /** What a step does to the network: nothing, or one of its operations. */
  datatype NetOp =
    | Quiet
    | Assigns(address: Ipv6, passcode: Passcode, later: nat)
    | Binds(net: NetState<SessionId>, key: RouteKey)
    | Unbinds(key: RouteKey)

  function OpOf(env: Env, s: State, step: Step): NetOp {
    match step
    case Command(sid, raw, choice) =>
      if sid !in s.clients || s.clients[sid].lease.Some? then Quiet
      else
        (match PlanFor(env, s.clients[sid], sid, raw)
         case Ask(NewAddress) => Assigns(choice.address, choice.passcode, choice.later)
         case Ask(Claim(passcode, port, relay)) =>
           (match Bind(s.net, passcode, port, relay, s.now)
            case Ok(bound) => Binds(bound.0, bound.1)
            case Err(_) => Quiet)
         case _ => Quiet)
    case DropSession(sid) =>
      if sid in s.clients && Claimed(s, sid).Some? then Unbinds(Claimed(s, sid).value) else Quiet
    case _ => Quiet
  }

  ghost predicate NetDoes(s: State, op: NetOp, t: State) {
    match op
    case Quiet => t.net == s.net && t.touches == s.touches && t.now >= s.now
    case Assigns(address, passcode, later) =>
      && later >= s.now && t.now == later && IsClientAddress(address)
      && IsFree(Expired(s.net, s.now), address, passcode)
      && t.net == Issued(Expired(s.net, s.now), address, passcode, later)
      && t.touches == s.touches + [(address, later)]
    case Binds(net, key) =>
      && (exists passcode, port, relay :: Bind(s.net, passcode, port, relay, s.now) == Ok((net, key)))
      && t.net == net && t.touches == s.touches + [(key.address, s.now)] && t.now == s.now
    case Unbinds(key) =>
      && key in s.net.routes && t.net == Unbind(s.net, key, s.now)
      && t.touches == s.touches + [(key.address, s.now)] && t.now == s.now
  }

  lemma ServeDoes(env: Env, s: State, sid: SessionId, raw: Bytes, choice: Choice, call: Call)
    requires sid in s.clients && s.clients[sid].lease.None? && PlanFor(env, s.clients[sid], sid, raw) == Ask(call)
    requires ChoiceAllowed(s, Ask(call), choice)
    ensures NetDoes(s, OpOf(env, s, Command(sid, raw, choice)), Serve(env, s, sid, call, choice))
  {
  }

  lemma CommandDoes(env: Env, s: State, sid: SessionId, raw: Bytes, choice: Choice)
    requires sid in s.clients && ChoiceAllowed(s, PlanFor(env, s.clients[sid], sid, raw), choice)
    ensures NetDoes(s, OpOf(env, s, Command(sid, raw, choice)), RunCommand(env, s, sid, raw, choice))
  {
    match PlanFor(env, s.clients[sid], sid, raw)
    case Ask(call) =>
      if s.clients[sid].lease.None? {
        ServeDoes(env, s, sid, raw, choice, call);
      }
    case _ =>
  }

  lemma DataDoes(s: State, sid: SessionId, via: Via, raw: Bytes)
    requires sid in s.clients
    ensures NetDoes(s, Quiet, HandData(s, sid, via, raw))
  {
  }

  lemma TurnsDo(env: Env, s: State, step: Step)
    requires Enabled(env, s, step) && TaskTurn(step)
    ensures NetDoes(s, Quiet, Next(env, s, step))
  {
  }

  lemma OthersDo(env: Env, s: State, step: Step)
    requires Enabled(env, s, step) && !step.Command? && !step.Data? && !step.DropSession? && !TaskTurn(step)
    ensures NetDoes(s, Quiet, Next(env, s, step))
  {
  }

  lemma StepDoes(env: Env, s: State, step: Step)
    requires TokensSound(s) && Consistent(s.net) && Enabled(env, s, step)
    ensures NetDoes(s, OpOf(env, s, step), Next(env, s, step))
  {
    if TaskTurn(step) {
      TurnsDo(env, s, step);
    } else if step.Command? {
      CommandDoes(env, s, step.sid, step.raw, step.choice);
    } else if step.Data? {
      DataDoes(s, step.sid, step.via, step.raw);
    } else if step.DropSession? {
      DropDoes(s, step.sid);
    } else {
      OthersDo(env, s, step);
    }
  }

  lemma DropDoes(s: State, sid: SessionId)
    requires TokensSound(s) && Consistent(s.net) && sid in s.clients && s.clients[sid].phase.Ending?
    ensures NetDoes(s, if Claimed(s, sid).Some? then Unbinds(Claimed(s, sid).value) else Quiet, DropClient(s, sid))
  {
    DropReleases(s, sid);
    assert HolderSound(s, sid);
  }

  /** The tables and the record of touches stay consistent. */
  lemma NetKeeps(s: State, op: NetOp, t: State)
    requires Consistent(s.net) && TouchesSound(s.net, s.touches, s.now) && NetDoes(s, op, t)
    ensures Consistent(t.net) && TouchesSound(t.net, t.touches, t.now)
  {
    TouchesKept(s, op, t);
    match op
    case Quiet =>
    case Assigns(address, passcode, later) =>
      ExpiredConsistent(s.net, s.now);
      IssuedConsistent(Expired(s.net, s.now), address, passcode, later);
    case Binds(net, key) =>
      var passcode, port, relay :| Bind(s.net, passcode, port, relay, s.now) == Ok((net, key));
      BindConsistent(s.net, passcode, port, relay, s.now);
    case Unbinds(key) =>
      UnbindConsistent(s.net, key, s.now);
  }

  lemma TouchesKept(s: State, op: NetOp, t: State)
    requires TouchesSound(s.net, s.touches, s.now) && NetDoes(s, op, t)
    ensures TouchesSound(t.net, t.touches, t.now)
  {
    forall a | a in t.net.byAddress ensures (a, t.net.byAddress[a].touched) in t.touches {
      if !op.Quiet? {
        assert t.touches[|s.touches|] == t.touches[|t.touches| - 1];
      }
    }
  }

  /** A session that has just been opened has nothing and is owed nothing. */
  ghost predicate Fresh(c: Client) {
    c.phase.Serving? && c.relayTx && c.lease.None? && !c.relayUdp && c.inbox == [] && c.taken == 0
  }

  lemma OpenTokens(s: State, t: State, sid: SessionId)
    requires TokensSound(s) && sid !in s.clients && sid in t.clients && Fresh(t.clients[sid])
    requires t == s.(clients := s.clients[sid := t.clients[sid]])
    ensures TokensSound(t)
    ensures forall i | i in s.clients :: Claimed(t, i) == Claimed(s, i)
  {
    forall i | i in s.clients ensures Claimed(t, i) == Claimed(s, i) && HolderSound(t, i) {
      assert HolderSound(s, i);
    }
    forall l | l in t.leases ensures LeaseSound(t, l) {
      assert LeaseSound(s, l);
    }
    forall k | k in t.net.routes ensures RouteSound(t, k) {
      assert RouteSound(s, k);
    }
  }

  lemma OpenTasks(s: State, t: State, sid: SessionId)
    requires TasksSound(s) && TokensSound(s) && sid !in s.clients && sid in t.clients
    requires t == s.(clients := s.clients[sid := t.clients[sid]])
    ensures TasksSound(t)
  {
    forall l | l in t.leases ensures LeaseServed(t, l) {
      assert LeaseSound(s, l) && LeaseServed(s, l);
    }
    forall l | l in t.tasks ensures TaskSound(t, l) {
      assert TaskSound(s, l);
    }
  }

  lemma OpenKeeps(env: Env, s: State, t: State, sid: SessionId)
    requires Linked(env, s) && sid !in s.clients && sid in t.clients && Fresh(t.clients[sid])
    requires t == s.(clients := s.clients[sid := t.clients[sid]])
    ensures Linked(env, t)
  {
    OpenTokens(s, t, sid);
    OpenTasks(s, t, sid);
    forall i | i in t.clients ensures InboxSound(t, i) {
      if i != sid {
        assert InboxSound(s, i);
      }
    }
  }

  /** Sessions, leases and tasks do not depend on the rest of the network. */
  lemma LinkedAlike(env: Env, s: State, t: State)
    requires Linked(env, s)
    requires t.clients == s.clients && t.leases == s.leases && t.tasks == s.tasks && t.net.routes == s.net.routes
    ensures Linked(env, t)
  {
    forall i | i in t.clients ensures HolderSound(t, i) && InboxSound(t, i) {
      assert HolderSound(s, i) && InboxSound(s, i) && Claimed(t, i) == Claimed(s, i);
    }
    forall l | l in t.leases ensures LeaseSound(t, l) && LeaseServed(t, l) {
      assert LeaseSound(s, l) && LeaseServed(s, l);
    }
    forall k | k in t.net.routes ensures RouteSound(t, k) {
      assert RouteSound(s, k) && Claimed(t, t.net.routes[k]) == Claimed(s, s.net.routes[k]);
    }
    forall l | l in t.tasks ensures TaskSound(t, l) {
      assert TaskSound(s, l);
    }
  }

  lemma ServeKeeps(env: Env, s: State, sid: SessionId, call: Call, choice: Choice)
    requires Linked(env, s) && Consistent(s.net) && sid in s.clients
    requires s.clients[sid].phase.Serving? && s.clients[sid].send && s.clients[sid].lease.None?
    requires choice.lease !in s.tasks && (call.Route? || call.Claim? ==> call.relay == sid)
    ensures Linked(env, Serve(env, s, sid, call, choice))
  {
    var c := s.clients[sid];
    match call
    case NewAddress =>
      var answer := Assigned(choice.address, choice.passcode);
      AnswerKeeps(env, s, sid, call, answer, choice.answered);
      LinkedAlike(env,
        SetClient(s, sid, AfterCommand(env, c, sid, call, answer, choice.answered)), Serve(env, s, sid, call, choice));
    case Claim(passcode, port, relay) =>
      var bound := Bind(s.net, passcode, port, relay, s.now);
      if bound.Ok? {
        BindOutcome(s.net, passcode, port, relay, s.now);
        ClaimKeeps(env, s, sid, call, bound.value.1, Serve(env, s, sid, call, choice));
      } else {
        AnswerKeeps(env, s, sid, call, Refused, choice.answered);
      }
    case Route(addr, relay) =>
      if ServiceJob(addr).Some? {
        RouteKeeps(env, s, sid, call, choice);
      } else {
        AnswerKeeps(env, s, sid, call, Refused, choice.answered);
      }
  }

  lemma CommandKeeps(env: Env, s: State, sid: SessionId, raw: Bytes, choice: Choice)
    requires Linked(env, s) && Consistent(s.net) && Enabled(env, s, Command(sid, raw, choice))
    ensures Linked(env, RunCommand(env, s, sid, raw, choice))
  {
    var c := s.clients[sid];
    assert ClientSound(c);
    if c.lease.Some? {
      EndKeeps(env, s, sid);
    } else {
      PlanIsOwn(env, c, sid, raw);
      match PlanFor(env, c, sid, raw)
      case Fail => EndKeeps(env, s, sid);
      case Respond(response) =>
        QuietKeeps(env, s, sid, c.(replies := c.replies + [response]));
        EndKeeps(env, s, sid);
      case Ask(call) => ServeKeeps(env, s, sid, call, choice);
    }
  }

  /** A command can only give away the session's own relay. */
  lemma PlanIsOwn(env: Env, c: Client, sid: SessionId, raw: Bytes)
    ensures match PlanFor(env, c, sid, raw)
      case Ask(Route(_, relay)) => relay == sid && c.relayTx
      case Ask(Claim(_, _, relay)) => relay == sid && c.relayTx
      case _ => true
  {
  }

  lemma AcceptKeeps(env: Env, s: State, sid: SessionId)
    requires Linked(env, s) && sid in s.clients && s.clients[sid].phase.Serving?
    ensures if s.clients[sid].send then Linked(env, End(s, sid))
            else Linked(env, SetClient(s, sid, s.clients[sid].(send := true)))
  {
    assert ClientSound(s.clients[sid]);
    EndKeeps(env, s, sid);
    QuietKeeps(env, s, sid, s.clients[sid].(send := true));
  }

  /** What is buffered does not matter to any of it. */
  lemma BufsKeep(env: Env, s: State, bufs: map<SessionId, Bytes>)
    requires Linked(env, s)
    ensures Linked(env, s.(bufs := bufs))
  {
    LinkedAlike(env, s, s.(bufs := bufs));
  }

  lemma SessionKeepsLinks(env: Env, s: State, step: Step)
    requires Inv(env, s) && Enabled(env, s, step) && !TaskTurn(step)
    ensures Linked(env, Next(env, s, step))
  {
    match step
    case Tick(later) => LinkedAlike(env, s, s.(now := later));
    case Open(sid, transport) => OpenKeeps(env, s, Next(env, s, step), sid);
    case AcceptStream(sid) => AcceptKeeps(env, s, sid);
    case Command(sid, raw, choice) =>
      CommandKeeps(env, s, sid, raw, choice);
      BufsKeep(env, RunCommand(env, s, sid, raw, choice), Next(env, s, step).bufs);
    case Buffer(_, _) => BufsKeep(env, s, Next(env, s, step).bufs);
    case Overgrown(sid) => EndKeeps(env, s, sid);
    case BindDone(sid, l, answered) => BindDoneKeeps(env, s, sid, l, answered);
    case Data(sid, via, raw) =>
      DataKeeps(env, s, sid, via, raw);
      BufsKeep(env, HandData(s, sid, via, raw), Next(env, s, step).bufs);
    case ReadRelay(sid, link) => ReadKeeps(env, s, sid, link);
    case Disconnect(sid) => EndKeeps(env, s, sid);
    case DropSession(sid) => DropKeeps(env, s, sid);
  }

  lemma ResolveEndsKeeps(env: Env, s: State, l: LeaseId)
    requires Linked(env, s) && AtWork(s, l) && s.tasks[l].job.Resolving? && l !in s.leases
    ensures Linked(env, SetTask(s, l, s.tasks[l].(progress := Returned(false))))
  {
    TaskClient(s, l);
    TaskQuiet(env, s, l, s.tasks[l].(progress := Returned(false)));
  }

  lemma TurnKeepsLinks(env: Env, s: State, step: Step)
    requires Inv(env, s) && Enabled(env, s, step) && TaskTurn(step)
    ensures Linked(env, Next(env, s, step))
  {
    match step
    case TranslateTurn(l, e) => TranslateKeeps(env, s, l, e);
    case ConnectTurn(l, e) => ConnectKeeps(env, s, l, e);
    case ResolveTurn(l, found) => ResolveKeeps(env, s, l, found);
    case ResolveEnds(l) => ResolveEndsKeeps(env, s, l);
    case TaskExit(l) =>
      assert TaskSound(s, l);
      ExitKeeps(env, s, l);
  }

  /** Every step that can be taken keeps the invariant. */
  lemma StepKeeps(env: Env, s: State, step: Step)
    requires Inv(env, s) && Enabled(env, s, step)
    ensures Inv(env, Next(env, s, step))
  {
    if TaskTurn(step) {
      TurnKeepsLinks(env, s, step);
    } else {
      SessionKeepsLinks(env, s, step);
    }
    StepDoes(env, s, step);
    NetKeeps(s, OpOf(env, s, step), Next(env, s, step));
  }

  /** The invariant holds all along every run. */
  lemma {:induction false} RunKeeps(env: Env, trace: seq<State>, steps: seq<Step>, i: nat)
    requires IsRun(env, trace, steps) && i < |trace|
    ensures Inv(env, trace[i])
  {
    if i == 0 {
      assert |RoutesOn(INITIAL.net, PROXY_ADDRESS)| == 0;
    } else {
      RunKeeps(env, trace, steps, i - 1);
      assert StepAt(env, trace, steps, i - 1);
      StepKeeps(env, trace[i - 1], steps[i - 1]);
    }
  }

  ghost predicate Reachable(env: Env, s: State) {
    exists trace, steps :: IsRun(env, trace, steps) && trace[|steps|] == s
  }

  lemma ReachableKeeps(env: Env, s: State)
    requires Reachable(env, s)
    ensures Inv(env, s)
  {
    var trace, steps :| IsRun(env, trace, steps) && trace[|steps|] == s;
    RunKeeps(env, trace, steps, |steps|);
  }
}
