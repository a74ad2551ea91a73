/** What the commands of a session do to the whole proxy. */
module ProxyCommands {
  import opened Wrappers
  import opened BigEndian
  import opened Code
  import opened NetworkState
  import opened Commands
  import opened Proxy
  import opened ProxyInvariant
  import opened ProxyRuns
  import opened ProxySafety
  import opened ProxyHistory

  /** A NEWADDR command answers with the address and passcode it handed out. */
  lemma NewAddressAnswers(env: Env, s: State, sid: SessionId, raw: Bytes, choice: Choice)
    requires Enabled(env, s, Command(sid, raw, choice))
    requires OpOf(env, s, Command(sid, raw, choice)).Assigns?
    ensures var t := Next(env, s, Command(sid, raw, choice));
      && (choice.answered ==>
            t.clients[sid].replies
            == s.clients[sid].replies + [AddrResponse(env.ip, choice.address, choice.passcode)])
      && Resolves(t, choice.passcode, choice.address) && LastTouched(t, choice.address) == choice.later
  {
  }

  /** What a BIND for a known passcode and a free port leaves behind. */
  ghost predicate ClaimedBy(t: State, sid: SessionId, passcode: Passcode, key: RouteKey) {
    && sid in t.clients && t.clients[sid].phase == Binding(Claim(passcode, key.port, sid), key)
    && key in t.net.routes && t.net.routes[key] == sid
  }

  lemma BindClaims(
    env: Env, s: State, sid: SessionId, raw: Bytes, choice: Choice, passcode: Passcode, key: RouteKey, portText: string)
    requires Consistent(s.net) && sid in s.clients && s.clients[sid].lease.None? && s.clients[sid].relayTx
    requires IsBindLine(raw, passcode, portText, key.port) && key.port != 0
    requires Resolves(s, passcode, key.address) && key !in s.net.routes
    ensures ClaimedBy(RunCommand(env, s, sid, raw, choice), sid, passcode, key)
  {
    BindLineReads(env.ip, raw, passcode, key.port, sid);
    BindServed(env, s, sid, choice, passcode, key);
  }

  lemma BindServed(env: Env, s: State, sid: SessionId, choice: Choice, passcode: Passcode, key: RouteKey)
    requires Consistent(s.net) && sid in s.clients && key.port != 0
    requires Resolves(s, passcode, key.address) && key !in s.net.routes
    ensures ClaimedBy(RunPlan(env, s, sid, Ask(Claim(passcode, key.port, sid)), choice), sid, passcode, key)
  {
    BindOutcome(s.net, passcode, key.port, sid, s.now);
  }

  /** What was handed out is on the books, and the client has been told if its
      connection takes the response. */
  ghost predicate Told(env: Env, s: State, t: State, sid: SessionId, choice: Choice) {
    && sid in s.clients && sid in t.clients
    && (choice.answered ==>
          t.clients[sid].replies
          == s.clients[sid].replies + [AddrResponse(env.ip, choice.address, choice.passcode)])
    && Resolves(t, choice.passcode, choice.address) && LastTouched(t, choice.address) == choice.later
  }

  lemma NewAddressEdge(env: Env, trace: seq<State>, steps: seq<Step>, i: nat)
    requires IsRun(env, trace, steps) && i < |steps|
    requires steps[i].Command? && OpOf(env, trace[i], steps[i]).Assigns?
    ensures Told(env, trace[i], trace[i + 1], steps[i].sid, steps[i].choice)
  {
    assert StepAt(env, trace, steps, i);
    NewAddressAnswers(env, trace[i], steps[i].sid, steps[i].raw, steps[i].choice);
  }

  lemma BindEdge(
    env: Env, trace: seq<State>, steps: seq<Step>, j: nat, passcode: Passcode, key: RouteKey, portText: string)
    requires IsRun(env, trace, steps) && j < |steps| && steps[j].Command?
    requires steps[j].sid in trace[j].clients && trace[j].clients[steps[j].sid].lease.None?
    requires IsBindLine(steps[j].raw, passcode, portText, key.port) && key.port != 0
    requires Resolves(trace[j], passcode, key.address) && key !in trace[j].net.routes
    ensures ClaimedBy(trace[j + 1], steps[j].sid, passcode, key)
  {
    RunKeeps(env, trace, steps, j);
    assert StepAt(env, trace, steps, j);
    assert ClientSound(trace[j].clients[steps[j].sid]);
    BindClaims(env, trace[j], steps[j].sid, steps[j].raw, steps[j].choice, passcode, key, portText);
  }

  /** NEWADDR and BIND agree: within the retention time, a BIND made from the
      passcode in the reply to a NEWADDR claims its port on the address in that
      reply, if the port is a real one and free. */
  lemma NewAddressThenBind(
    env: Env, trace: seq<State>, steps: seq<Step>, i: nat, j: nat, key: RouteKey, portText: string)
    requires IsRun(env, trace, steps) && i < j < |steps| && steps[i].Command? && steps[j].Command?
    requires OpOf(env, trace[i], steps[i]).Assigns? && key.address == steps[i].choice.address
    requires trace[j].now < steps[i].choice.later + DAY
    requires steps[j].sid in trace[j].clients && trace[j].clients[steps[j].sid].lease.None?
    requires IsBindLine(steps[j].raw, steps[i].choice.passcode, portText, key.port)
    requires key.port != 0 && key !in trace[j].net.routes
    ensures Told(env, trace[i], trace[i + 1], steps[i].sid, steps[i].choice)
    ensures ClaimedBy(trace[j + 1], steps[j].sid, steps[i].choice.passcode, key)
  {
    var choice := steps[i].choice;
    NewAddressEdge(env, trace, steps, i);
    ResolvesForADay(env, trace, steps, i + 1, j, choice.passcode, choice.address);
    BindEdge(env, trace, steps, j, choice.passcode, key, portText);
  }

  /** The session has been given the port it claimed, and told so. */
  ghost predicate PortMade(s: State, t: State, sid: SessionId, l: LeaseId) {
    && sid in s.clients && s.clients[sid].phase.Binding?
    && BoundTo(t, sid, s.clients[sid].phase.key)
    && t.clients[sid].lease == Some(l) && t.leases[l].owner == sid && !t.clients[sid].relayTx
    && t.clients[sid].replies == s.clients[sid].replies + ["BIND OK"]
  }

  /** The session is on its way out, still with the lease it has been given. */
  ghost predicate LeavesWith(t: State, sid: SessionId, l: LeaseId) {
    && sid in t.clients && t.clients[sid].phase.Ending?
    && t.clients[sid].lease == Some(l) && l in t.leases && t.leases[l].owner == sid
  }

  /** A claimed port becomes a lease and the client is told so; a session that
      cannot tell its client leaves, and takes the lease with it. */
  lemma BindCompletes(env: Env, s: State, sid: SessionId, l: LeaseId, answered: bool)
    requires Inv(env, s) && Enabled(env, s, BindDone(sid, l, answered))
    ensures if answered then PortMade(s, Next(env, s, BindDone(sid, l, answered)), sid, l)
            else LeavesWith(Next(env, s, BindDone(sid, l, answered)), sid, l)
  {
    FinishMakesPort(env, s, sid, l, answered);
  }

  lemma FinishMakesPort(env: Env, s: State, sid: SessionId, l: LeaseId, answered: bool)
    requires TokensSound(s) && sid in s.clients && s.clients[sid].phase.Binding?
    ensures if answered then PortMade(s, FinishBind(env, s, sid, l, answered), sid, l)
            else LeavesWith(FinishBind(env, s, sid, l, answered), sid, l)
  {
    assert ClientSound(s.clients[sid]);
  }

  /** A refused BIND is answered and changes nothing else, so the client can
      try again with the relay it still has. */
  lemma RefusedBindCanRetry(
    env: Env, s: State, sid: SessionId, raw: Bytes, choice: Choice, passcode: Passcode, portText: string, port: u16)
    requires Reachable(env, s) && Enabled(env, s, Command(sid, raw, choice)) && s.clients[sid].lease.None?
    requires IsBindLine(raw, passcode, portText, port)
    requires port == 0 || passcode !in s.net.byPasscode || RouteKey(s.net.byPasscode[passcode], port) in s.net.routes
    ensures OnlyReplies(s, Next(env, s, Command(sid, raw, choice)), sid, raw, choice.answered, "BIND FAILED")
    ensures s.clients[sid].relayTx
  {
    HasRelay(env, s, sid);
    BindLineReads(env.ip, raw, passcode, port, sid);
    BindRefused(env, s, sid, passcode, port, choice);
  }

  lemma BindRefused(env: Env, s: State, sid: SessionId, passcode: Passcode, port: u16, choice: Choice)
    requires sid in s.clients && s.clients[sid].phase.Serving? && s.clients[sid].relayTx && s.clients[sid].lease.None?
    requires port == 0 || passcode !in s.net.byPasscode || RouteKey(s.net.byPasscode[passcode], port) in s.net.routes
    ensures var c := s.clients[sid];
      RunPlan(env, s, sid, Ask(Claim(passcode, port, sid)), choice)
      == SetClient(s, sid,
           if choice.answered then c.(replies := c.replies + ["BIND FAILED"]) else c.(phase := Ending))
  {
  }

  /** Nothing has changed but that the client has this reply, or that its
      session leaves because it cannot be written; the line is off the buffer. */
  ghost predicate OnlyReplies(s: State, t: State, sid: SessionId, raw: Bytes, answered: bool, reply: string) {
    sid in s.clients &&
    var c := s.clients[sid];
    t == s.(
      clients := s.clients[sid := if answered then c.(replies := c.replies + [reply]) else c.(phase := Ending)],
      bufs := LineTaken(s, sid, raw))
  }

  lemma HasRelay(env: Env, s: State, sid: SessionId)
    requires Reachable(env, s) && sid in s.clients && s.clients[sid].phase.Serving? && s.clients[sid].lease.None?
    ensures s.clients[sid].relayTx
  {
    ReachableKeeps(env, s);
    assert ClientSound(s.clients[sid]);
  }

  /** PING is answered with PONG and whatever came behind it. */
  lemma PingIsEchoed(env: Env, s: State, sid: SessionId, raw: Bytes, choice: Choice, rest: string)
    requires Enabled(env, s, Command(sid, raw, choice)) && s.clients[sid].lease.None? && IsPing(raw, rest)
    ensures OnlyReplies(s, Next(env, s, Command(sid, raw, choice)), sid, raw, choice.answered, "PONG" + rest)
  {
    PingReads(env.ip, raw, if s.clients[sid].relayTx then Some(sid) else None, "PONG" + rest);
  }

  /** NEWADDR hands out the pair drawn, which is free once the stale ones have
      been forgotten, and tells the client. */
  ghost predicate AddressGiven(env: Env, s: State, t: State, sid: SessionId, raw: Bytes, choice: Choice) {
    var net := Expired(s.net, s.now);
    && IsClientAddress(choice.address) && IsFree(net, choice.address, choice.passcode) && choice.later >= s.now
    && OnlyReplies(s.(net := t.net, touches := t.touches, now := t.now), t, sid, raw, choice.answered,
         "ADDR " + env.ip.show(choice.address) + " " + choice.passcode)
    && t.net == Issued(net, choice.address, choice.passcode, choice.later)
    && t.touches == s.touches + [(choice.address, choice.later)] && t.now == choice.later
  }

  lemma NewAddressGives(env: Env, s: State, sid: SessionId, raw: Bytes, choice: Choice)
    requires Enabled(env, s, Command(sid, raw, choice)) && s.clients[sid].lease.None? && IsLine(raw, ["NEWADDR"])
    ensures AddressGiven(env, s, Next(env, s, Command(sid, raw, choice)), sid, raw, choice)
  {
    NewAddressLineReads(env.ip, raw, if s.clients[sid].relayTx then Some(sid) else None);
    AddressServed(env, s, sid, choice);
  }

  lemma AddressServed(env: Env, s: State, sid: SessionId, choice: Choice)
    requires sid in s.clients && s.clients[sid].phase.Serving? && s.clients[sid].lease.None?
    ensures var c, t := s.clients[sid], RunPlan(env, s, sid, Ask(NewAddress), choice);
      var reply := "ADDR " + env.ip.show(choice.address) + " " + choice.passcode;
      var d := if choice.answered then c.(replies := c.replies + [reply]) else c.(phase := Ending);
      t == s.(
        clients := s.clients[sid := d],
        net := Issued(Expired(s.net, s.now), choice.address, choice.passcode, choice.later),
        touches := s.touches + [(choice.address, choice.later)], now := choice.later)
  {
  }

  /** Any other line, and any line under a lease, ends the session and has no
      other effect. */
  lemma OtherLinesEnd(env: Env, s: State, sid: SessionId, raw: Bytes, choice: Choice)
    requires Reachable(env, s) && Enabled(env, s, Command(sid, raw, choice))
    requires s.clients[sid].lease.Some? || !IsKnownLine(env.ip, raw, Some(sid))
    ensures Next(env, s, Command(sid, raw, choice))
      == s.(clients := s.clients[sid := s.clients[sid].(phase := Ending)], bufs := LineTaken(s, sid, raw))
  {
    if s.clients[sid].lease.None? {
      HasRelay(env, s, sid);
      OtherLinesFail(env.ip, raw, Some(sid));
    }
  }

  /** The session has been given a link to the service at `addr`, whose task
      is at work, and told so. */
  ghost predicate LinkMade(s: State, t: State, sid: SessionId, l: LeaseId, addr: SocketAddr) {
    && sid in s.clients && sid in t.clients
    && t.clients[sid].lease == Some(l) && t.clients[sid].phase.Serving?
    && t.clients[sid].replies == s.clients[sid].replies + ["PROXY OK"]
    && t.leases == s.leases[l := Lease(sid, None)]
    && AtWork(t, l) && t.tasks[l].relay == sid
    && (IsProxyPort(addr, 8080) <==> t.tasks[l].job.Connecting?)
    && (IsProxyPort(addr, 53) <==> t.tasks[l].job.Resolving?)
  }

  ghost predicate LinkRefused(s: State, t: State, sid: SessionId) {
    && sid in t.clients && t.clients[sid].phase.Ending? && t.clients[sid].lease.None?
    && t.leases == s.leases && t.tasks == s.tasks
  }

  ghost predicate LinkOutcome(s: State, t: State, sid: SessionId, choice: Choice, addr: SocketAddr) {
    if !IsProxyPort(addr, 8080) && !IsProxyPort(addr, 53) then LinkRefused(s, t, sid)
    else if choice.answered then LinkMade(s, t, sid, choice.lease, addr)
    else LeavesWith(t, sid, choice.lease)
  }

  /** PROXY leads to the two services and nowhere else: a well-formed command
      for one of their addresses starts that service under a new lease, and for
      any other address ends the session without one. */
  lemma ProxyReachesServices(
    env: Env, s: State, sid: SessionId, raw: Bytes, choice: Choice,
    addrText: string, portText: string, addr: SocketAddr)
    requires Inv(env, s) && Enabled(env, s, Command(sid, raw, choice)) && s.clients[sid].lease.None?
    requires IsProxyLine(env.ip, raw, addrText, portText, addr)
    ensures LinkOutcome(s, Next(env, s, Command(sid, raw, choice)), sid, choice, addr)
  {
    assert ClientSound(s.clients[sid]);
    ProxyLineReads(env.ip, raw, addr, sid);
    ServeMakesLink(env, s, sid, addr, choice);
  }

  lemma ServeMakesLink(env: Env, s: State, sid: SessionId, addr: SocketAddr, choice: Choice)
    requires sid in s.clients && s.clients[sid].phase.Serving? && s.clients[sid].lease.None?
    ensures LinkOutcome(s, Serve(env, s, sid, Route(addr, sid), choice), sid, choice, addr)
  {
  }

  // ----- nobody holds what was not handed out -----

  /** Step number `i` handed out that passcode with that address. */
  ghost predicate IssuedAt(
    env: Env, trace: seq<State>, steps: seq<Step>, i: nat, passcode: Passcode, address: Ipv6)
  {
    && i < |steps| && i < |trace| && steps[i].Command?
    && var op := OpOf(env, trace[i], steps[i]);
       op.Assigns? && op.address == address && op.passcode == passcode
  }

  /** The step is a BIND by session `sid` for the port of `k`, with a passcode
      that resolves to its address. */
  ghost predicate Claims(env: Env, s: State, step: Step, sid: SessionId, passcode: Passcode, k: RouteKey) {
    && step.Command? && step.sid == sid && Resolves(s, passcode, k.address)
    && exists portText :: IsBindLine(step.raw, passcode, portText, k.port)
  }

  ghost predicate ClaimedAt(
    env: Env, trace: seq<State>, steps: seq<Step>, j: nat, sid: SessionId, passcode: Passcode, k: RouteKey)
  {
    j < |steps| && j < |trace| && Claims(env, trace[j], steps[j], sid, passcode, k)
  }

  lemma ResolvesOrigin(s: State, op: NetOp, t: State, passcode: Passcode, address: Ipv6)
    requires NetDoes(s, op, t) && Resolves(t, passcode, address)
    ensures Resolves(s, passcode, address) || (op.Assigns? && op.address == address && op.passcode == passcode)
  {
  }

  lemma BindOrigin(env: Env, s: State, step: Step, k: RouteKey) returns (passcode: Passcode)
    requires Enabled(env, s, step) && OpOf(env, s, step).Binds? && OpOf(env, s, step).key == k
    ensures step.Command? && Claims(env, s, step, step.sid, passcode, k)
    ensures OpOf(env, s, step).net.routes == s.net.routes[k := step.sid]
  {
    var plan := PlanFor(env, s.clients[step.sid], step.sid, step.raw);
    PlanIsOwn(env, s.clients[step.sid], step.sid, step.raw);
    passcode := plan.call.passcode;
    BindLineReads(env.ip, step.raw, passcode, plan.call.port, step.sid);
  }

  lemma RouteOrigin(env: Env, s: State, step: Step, t: State, k: RouteKey) returns (passcode: Passcode)
    requires Enabled(env, s, step) && NetDoes(s, OpOf(env, s, step), t)
    requires k in t.net.routes && !(k in s.net.routes && s.net.routes[k] == t.net.routes[k])
    ensures Claims(env, s, step, t.net.routes[k], passcode, k)
  {
    var op := OpOf(env, s, step);
    assert op.Binds?;
    passcode := BindOrigin(env, s, step, op.key);
  }

  lemma {:induction false} ResolvesWasIssued(
    env: Env, trace: seq<State>, steps: seq<Step>, n: nat, passcode: Passcode, address: Ipv6) returns (i: nat)
    requires IsRun(env, trace, steps) && n < |trace| && Resolves(trace[n], passcode, address)
    ensures i < n && IssuedAt(env, trace, steps, i, passcode, address)
  {
    assert n > 0;
    i := n - 1;
    OpEdge(env, trace, steps, n - 1);
    ResolvesOrigin(trace[n - 1], OpOf(env, trace[n - 1], steps[n - 1]), trace[n], passcode, address);
    if Resolves(trace[n - 1], passcode, address) {
      i := ResolvesWasIssued(env, trace, steps, n - 1, passcode, address);
    }
  }

  lemma OpEdge(env: Env, trace: seq<State>, steps: seq<Step>, n: nat)
    requires IsRun(env, trace, steps) && n < |steps|
    ensures Enabled(env, trace[n], steps[n]) && NetDoes(trace[n], OpOf(env, trace[n], steps[n]), trace[n + 1])
    ensures OpOf(env, trace[n], steps[n]).Assigns? ==> steps[n].Command?
  {
    RunKeeps(env, trace, steps, n);
    assert StepAt(env, trace, steps, n);
    StepDoes(env, trace[n], steps[n]);
  }

  /** Nobody holds a port on an address without the passcode it was handed out
      with: whatever route there is, the session that holds it has claimed it
      with a BIND, at some step `j`, for a passcode that a still earlier step
      `i` handed out with that very address. */
  lemma {:induction false} RouteWasEarned(
    env: Env, trace: seq<State>, steps: seq<Step>, n: nat, k: RouteKey)
    returns (i: nat, j: nat, passcode: Passcode)
    requires IsRun(env, trace, steps) && n < |trace| && k in trace[n].net.routes
    ensures i < j < n && IssuedAt(env, trace, steps, i, passcode, k.address)
    ensures ClaimedAt(env, trace, steps, j, trace[n].net.routes[k], passcode, k)
  {
    assert n > 0;
    var s, t := trace[n - 1], trace[n];
    if k in s.net.routes && s.net.routes[k] == t.net.routes[k] {
      i, j, passcode := RouteWasEarned(env, trace, steps, n - 1, k);
    } else {
      OpEdge(env, trace, steps, n - 1);
      j := n - 1;
      passcode := RouteOrigin(env, s, steps[n - 1], t, k);
      i := ResolvesWasIssued(env, trace, steps, n - 1, passcode, k.address);
    }
  }
}
