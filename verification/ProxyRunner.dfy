/** A WebTransport session's own loop (`WebTransport.HandleData`) inside the
    whole proxy: handling a chunk is the same as the session's steps of the
    machine, taken without anything in between. */
module ProxyRunner {
  import opened Wrappers
  import opened BigEndian
  import opened Code
  import opened NetworkState
  import opened Commands
  import opened Proxy
  import opened ProxyInvariant
  import opened ProxyRuns
  import Translate
  import WebTransport

  type Runner = WebTransport.Runner<World>
  type Flow = WebTransport.Flow<World>

  /** The rest of the proxy, and how many of the choices have been used. */
  datatype World = World(s: State, used: nat)

  type Choices = nat -> Choice

  function WithLease(s: State, sid: SessionId, l: LeaseId, key: Option<RouteKey>, job: Job): State {
    s.(leases := s.leases[l := Lease(sid, key)], tasks := s.tasks[l := Task(sid, job, Working)])
  }

  /** The proxy's service as session `sid` sees it. */
  function ServiceFor(sid: SessionId, choices: Choices): Service<World> {
    Service(
      (w: World) => AssignIn(w, choices(w.used)),
      (w: World, passcode: Passcode, port: u16, relay: Relay) => BindIn(w, sid, passcode, port, relay, choices(w.used)),
      (w: World, addr: SocketAddr, relay: Relay) => RouteIn(w, sid, addr, choices(w.used)))
  }

  function AssignIn(w: World, c: Choice): (World, Ipv6, Passcode) {
    var s := w.s.(now := c.later, net := Issued(Expired(w.s.net, w.s.now), c.address, c.passcode, c.later),
                  touches := Touch(w.s, c.address, c.later));
    (World(s, w.used + 1), c.address, c.passcode)
  }

  function BindIn(w: World, sid: SessionId, passcode: Passcode, port: u16, relay: Relay, c: Choice)
    : (World, Option<LeaseId>)
  {
    match Bind(w.s.net, passcode, port, relay, w.s.now)
    case Err(_) => (World(w.s, w.used + 1), None)
    case Ok(bound) =>
      var s := w.s.(net := bound.0, touches := Touch(w.s, bound.1.address, w.s.now));
      (World(WithLease(s, sid, c.lease, Some(bound.1), Translating(Translate.NEW_TRANSLATOR, [])), w.used + 1),
       Some(c.lease))
  }

  function RouteIn(w: World, sid: SessionId, addr: SocketAddr, c: Choice): (World, Option<LeaseId>) {
    match ServiceJob(addr)
    case None => (World(w.s, w.used + 1), None)
    case Some(job) => (World(WithLease(w.s, sid, c.lease, None, job), w.used + 1), Some(c.lease))
  }

  // ----- a runner as a part of the machine -----

  function Replies(output: seq<WebTransport.Output>): seq<string> {
    if output == [] then []
    else
      var before := Replies(output[..|output| - 1]);
      match output[|output| - 1]
      case Line(response) => before + [response]
      case _ => before
  }

  function Face(c: Client, w: Runner, phase: Phase): Client {
    c.(phase := phase, send := w.send, relayTx := w.relayTx.Some?, lease := w.lease, relayUdp := w.relayUdp,
       replies := Replies(w.output))
  }

  /** A task once it has been handed these messages. */
  function GivenMore(task: Task, messages: seq<Bytes>): Task {
    match task.job
    case Connecting(h, given, read) => task.(job := Connecting(h, given + messages, read))
    case Resolving(asked, answered) => task.(job := Resolving(asked + messages, answered))
    case Translating(_, _) => task
  }

  function TasksGiven(tasks: map<LeaseId, Task>, lease: Option<LeaseId>, messages: seq<Bytes>): map<LeaseId, Task> {
    if messages != [] && lease.Some? && lease.value in tasks
    then tasks[lease.value := GivenMore(tasks[lease.value], messages)]
    else tasks
  }

  /** The machine with session `sid` as the runner has it. */
  function Shown(w: Runner, sid: SessionId, phase: Phase): State
    requires sid in w.service.s.clients
  {
    var s := w.service.s;
    s.(clients := s.clients[sid := Face(s.clients[sid], w, phase)],
       tasks := TasksGiven(s.tasks, w.lease, w.forwarded),
       bufs := s.bufs[sid := w.cmdbuf])
  }

  function PhaseAfter(f: Flow): Phase {
    if f.Going? then Serving else Ending
  }

  /** The runner of a session that exists and is sound, with its own relay or a
      lease that the proxy knows of. */
  ghost predicate Fits(w: Runner, sid: SessionId) {
    && sid in w.service.s.clients && w.service.s.clients[sid].transport == OverWebTransport
    && w.send && (w.relayTx == if w.lease.None? then Some(sid) else None)
    && (w.lease.None? ==> !w.relayUdp && w.forwarded == [] && w.accepting)
    && (w.lease.Some? ==> LeaseFits(w.service.s, w.lease.value, w.relayUdp, w.accepting))
  }

  /** A datagram-only lease is a bound one, and a link takes data as long as its
      task is at work. */
  ghost predicate LeaseFits(s: State, l: LeaseId, relayUdp: bool, accepting: bool) {
    && l in s.leases && l in s.tasks
    && (relayUdp <==> s.leases[l].key.Some?)
    && (!relayUdp ==> !s.tasks[l].job.Translating? && (accepting <==> s.tasks[l].progress == Working))
  }

  // ----- one line -----

  function ChoiceFor(w: Runner, choices: Choices): Choice {
    choices(w.service.used).(answered := w.answers > 0)
  }

  /** The session's steps for one command: a bind takes a second one. */
  function AfterLine(env: Env, s: State, sid: SessionId, line: Bytes, choice: Choice): State
    requires sid in s.clients
  {
    var t := RunCommand(env, s, sid, line, choice).(bufs := LineTaken(s, sid, line));
    if sid in t.clients && t.clients[sid].phase.Binding?
    then FinishBind(env, t, sid, choice.lease, choice.answered) else t
  }

  lemma RepliesMore(output: seq<WebTransport.Output>, response: string)
    ensures Replies(output + [WebTransport.Line(response)]) == Replies(output) + [response]
  {
    assert (output + [WebTransport.Line(response)])[..|output|] == output;
  }

  lemma Overwritten<K, V>(m: map<K, V>, k: K, a: V, b: V)
    ensures m[k := a][k := b] == m[k := b]
  {
  }

  /** The line is the beginning of the buffer. */
  ghost predicate LineFirst(w: Runner, line: Bytes, rest: Bytes) {
    WebTransport.NEWLINE !in line && w.cmdbuf == line + [WebTransport.NEWLINE] + rest
  }

  lemma LineTakenOff(w: Runner, sid: SessionId, line: Bytes, rest: Bytes)
    requires Fits(w, sid) && LineFirst(w, line, rest)
    ensures HasLine(Shown(w, sid, Serving), sid, line)
    ensures LineTaken(Shown(w, sid, Serving), sid, line) == w.service.s.bufs[sid := rest]
  {
    WebTransport.IndexOfLine(WebTransport.NEWLINE, line, rest);
    assert w.cmdbuf[..|line|] == line && w.cmdbuf[|line| + 1..] == rest;
    Overwritten(w.service.s.bufs, sid, w.cmdbuf, rest);
  }

  /** What the runner makes of a line that asks for nothing, or for something. */
  function Ran(env: Env, w: Runner, sid: SessionId, choices: Choices, line: Bytes, rest: Bytes): Flow {
    WebTransport.RunLine(env.ip, ServiceFor(sid, choices), w.(cmdbuf := rest), line)
  }

  ghost predicate SameAfterLine(env: Env, w: Runner, sid: SessionId, choices: Choices, line: Bytes, rest: Bytes)
    requires sid in w.service.s.clients
  {
    var f := Ran(env, w, sid, choices, line, rest);
    && sid in f.w.service.s.clients
    && AfterLine(env, Shown(w, sid, Serving), sid, line, ChoiceFor(w, choices)) == Shown(f.w, sid, PhaseAfter(f))
    && (f.Going? ==> Fits(f.w, sid))
  }

  lemma PlainLineSame(env: Env, w: Runner, sid: SessionId, choices: Choices, line: Bytes, rest: Bytes)
    requires Fits(w, sid) && w.lease.None? && LineFirst(w, line, rest)
    requires !PlanCommand(env.ip, line, w.relayTx).Ask?
    ensures SameAfterLine(env, w, sid, choices, line, rest)
  {
    var s, f := Shown(w, sid, Serving), Ran(env, w, sid, choices, line, rest);
    var base := w.service.s;
    LineTakenOff(w, sid, line, rest);
    if f.Going? {
      RepliesMore(w.output, PlanCommand(env.ip, line, w.relayTx).response);
    }
    Overwritten(base.clients, sid, s.clients[sid], Face(base.clients[sid], f.w, PhaseAfter(f)));
  }

  /** The runner once a command has been answered and has made no lease. */
  function Answered(w: Runner, world: World, rest: Bytes, response: string): Flow {
    var v := w.(service := world, cmdbuf := rest);
    if w.answers == 0 then WebTransport.Failed(v)
    else WebTransport.Going(v.(output := w.output + [WebTransport.Line(response)], answers := w.answers - 1))
  }

  lemma AddressRan(env: Env, w: Runner, sid: SessionId, choices: Choices, line: Bytes, rest: Bytes)
    requires PlanCommand(env.ip, line, w.relayTx) == Ask(NewAddress)
    ensures var c := choices(w.service.used);
      Ran(env, w, sid, choices, line, rest)
        == Answered(w, AssignIn(w.service, c).0, rest, AddrResponse(env.ip, c.address, c.passcode))
  {
  }

  lemma AddressStepped(env: Env, s: State, sid: SessionId, line: Bytes, choice: Choice)
    requires sid in s.clients && s.clients[sid].phase.Serving? && s.clients[sid].lease.None? && s.clients[sid].relayTx
    requires PlanCommand(env.ip, line, Some(sid)) == Ask(NewAddress)
    ensures var c := s.clients[sid];
      var d := if choice.answered then
                 c.(replies := c.replies + [AddrResponse(env.ip, choice.address, choice.passcode)])
               else c.(phase := Ending);
      AfterLine(env, s, sid, line, choice)
        == SetClient(AssignIn(World(s, 0), choice).0.s, sid, d).(bufs := LineTaken(s, sid, line))
  {
  }

  lemma AddressLineSame(env: Env, w: Runner, sid: SessionId, choices: Choices, line: Bytes, rest: Bytes)
    requires Fits(w, sid) && w.lease.None? && LineFirst(w, line, rest)
    requires PlanCommand(env.ip, line, w.relayTx) == Ask(NewAddress)
    ensures SameAfterLine(env, w, sid, choices, line, rest)
  {
    var s, f, choice := Shown(w, sid, Serving), Ran(env, w, sid, choices, line, rest), ChoiceFor(w, choices);
    var base := w.service.s;
    LineTakenOff(w, sid, line, rest);
    RepliesMore(w.output, AddrResponse(env.ip, choice.address, choice.passcode));
    AddressRan(env, w, sid, choices, line, rest);
    AddressStepped(env, s, sid, line, choice);
    Overwritten(base.clients, sid, s.clients[sid], Face(base.clients[sid], f.w, PhaseAfter(f)));
  }

  lemma RefusedRan(
    env: Env, w: Runner, sid: SessionId, choices: Choices, line: Bytes, rest: Bytes, passcode: Passcode, port: u16)
    requires Fits(w, sid) && w.lease.None?
    requires PlanCommand(env.ip, line, w.relayTx) == Ask(Claim(passcode, port, sid))
    requires Bind(w.service.s.net, passcode, port, sid, w.service.s.now).Err?
    ensures Ran(env, w, sid, choices, line, rest)
         == Answered(w, World(w.service.s, w.service.used + 1), rest, "BIND FAILED")
  {
  }

  lemma RefusedStepped(
    env: Env, s: State, sid: SessionId, line: Bytes, choice: Choice, passcode: Passcode, port: u16)
    requires sid in s.clients && s.clients[sid].phase.Serving? && s.clients[sid].lease.None? && s.clients[sid].relayTx
    requires PlanCommand(env.ip, line, Some(sid)) == Ask(Claim(passcode, port, sid))
    requires Bind(s.net, passcode, port, sid, s.now).Err?
    ensures var c := s.clients[sid];
      var d := if choice.answered then c.(replies := c.replies + ["BIND FAILED"]) else c.(phase := Ending);
      AfterLine(env, s, sid, line, choice) == SetClient(s, sid, d).(bufs := LineTaken(s, sid, line))
  {
  }

  lemma RefusedLineSame(
    env: Env, w: Runner, sid: SessionId, choices: Choices, line: Bytes, rest: Bytes, passcode: Passcode, port: u16)
    requires Fits(w, sid) && w.lease.None? && LineFirst(w, line, rest)
    requires PlanCommand(env.ip, line, w.relayTx) == Ask(Claim(passcode, port, sid))
    requires Bind(w.service.s.net, passcode, port, sid, w.service.s.now).Err?
    ensures SameAfterLine(env, w, sid, choices, line, rest)
  {
    var s, f := Shown(w, sid, Serving), Ran(env, w, sid, choices, line, rest);
    var base := w.service.s;
    LineTakenOff(w, sid, line, rest);
    RepliesMore(w.output, "BIND FAILED");
    RefusedRan(env, w, sid, choices, line, rest, passcode, port);
    RefusedStepped(env, s, sid, line, ChoiceFor(w, choices), passcode, port);
    Overwritten(base.clients, sid, s.clients[sid], Face(base.clients[sid], f.w, PhaseAfter(f)));
  }

  /** The runner once a command has made the lease `l`. */
  function Leased(w: Runner, world: World, l: LeaseId, udp: bool, rest: Bytes, response: string): Flow {
    var v := w.(service := world, cmdbuf := rest, relayTx := None, lease := Some(l), relayUdp := udp);
    if w.answers == 0 then WebTransport.Failed(v)
    else WebTransport.Going(v.(output := w.output + [WebTransport.Line(response)], answers := w.answers - 1))
  }

  /** What a session looks like once it has its lease. */
  function LeasedFace(c: Client, l: LeaseId, udp: bool, response: string, answered: bool): Client {
    c.(phase := if answered then Serving else Ending, relayTx := false, lease := Some(l), relayUdp := udp,
       replies := if answered then c.replies + [response] else c.replies)
  }

  lemma LeasedShown(w: Runner, sid: SessionId, world: World, l: LeaseId, udp: bool, rest: Bytes, response: string)
    requires Fits(w, sid) && w.lease.None? && world.s.clients == w.service.s.clients
    ensures var f, c := Leased(w, world, l, udp, rest, response), Shown(w, sid, Serving).clients[sid];
      Shown(f.w, sid, PhaseAfter(f))
        == world.s.(clients := world.s.clients[sid := LeasedFace(c, l, udp, response, w.answers > 0)],
                    bufs := world.s.bufs[sid := rest])
  {
    RepliesMore(w.output, response);
  }

  lemma ClaimRan(
    env: Env, w: Runner, sid: SessionId, choices: Choices, line: Bytes, rest: Bytes, passcode: Passcode, port: u16)
    requires Fits(w, sid) && w.lease.None?
    requires PlanCommand(env.ip, line, w.relayTx) == Ask(Claim(passcode, port, sid))
    requires Bind(w.service.s.net, passcode, port, sid, w.service.s.now).Ok?
    ensures var l := choices(w.service.used).lease;
      Ran(env, w, sid, choices, line, rest)
        == Leased(w, BindIn(w.service, sid, passcode, port, sid, choices(w.service.used)).0, l, true, rest, "BIND OK")
  {
  }

  lemma ClaimStepped(
    env: Env, s: State, sid: SessionId, line: Bytes, choice: Choice, passcode: Passcode, port: u16)
    requires sid in s.clients && s.clients[sid].phase.Serving? && s.clients[sid].lease.None? && s.clients[sid].relayTx
    requires PlanCommand(env.ip, line, Some(sid)) == Ask(Claim(passcode, port, sid))
    requires Bind(s.net, passcode, port, sid, s.now).Ok?
    ensures var (net, key) := Bind(s.net, passcode, port, sid, s.now).value;
      AfterLine(env, s, sid, line, choice)
        == WithLease(s, sid, choice.lease, Some(key), Translating(Translate.NEW_TRANSLATOR, [])).(
             net := net, touches := Touch(s, key.address, s.now),
             clients := s.clients[sid := LeasedFace(s.clients[sid], choice.lease, true, "BIND OK", choice.answered)],
             bufs := LineTaken(s, sid, line))
  {
    var key, c := Bind(s.net, passcode, port, sid, s.now).value.1, s.clients[sid];
    Overwritten(s.clients, sid, c.(phase := Binding(Claim(passcode, port, sid), key)),
      LeasedFace(c, choice.lease, true, "BIND OK", choice.answered));
  }

  lemma ClaimLineSame(
    env: Env, w: Runner, sid: SessionId, choices: Choices, line: Bytes, rest: Bytes, passcode: Passcode, port: u16)
    requires Fits(w, sid) && w.lease.None? && LineFirst(w, line, rest)
    requires PlanCommand(env.ip, line, w.relayTx) == Ask(Claim(passcode, port, sid))
    requires Bind(w.service.s.net, passcode, port, sid, w.service.s.now).Ok?
    ensures SameAfterLine(env, w, sid, choices, line, rest)
  {
    var s, base, c := Shown(w, sid, Serving), w.service.s, ChoiceFor(w, choices);
    LineTakenOff(w, sid, line, rest);
    ClaimRan(env, w, sid, choices, line, rest, passcode, port);
    ClaimStepped(env, s, sid, line, c, passcode, port);
    LeasedShown(w, sid, BindIn(w.service, sid, passcode, port, sid, c).0, c.lease, true, rest, "BIND OK");
    Overwritten(base.clients, sid, s.clients[sid], LeasedFace(s.clients[sid], c.lease, true, "BIND OK", c.answered));
  }

  lemma NoRouteRan(
    env: Env, w: Runner, sid: SessionId, choices: Choices, line: Bytes, rest: Bytes, addr: SocketAddr)
    requires PlanCommand(env.ip, line, w.relayTx) == Ask(Route(addr, sid)) && ServiceJob(addr).None?
    ensures Ran(env, w, sid, choices, line, rest)
         == WebTransport.Failed(
              w.(service := World(w.service.s, w.service.used + 1), cmdbuf := rest, relayTx := None))
  {
  }

  lemma NoRouteStepped(env: Env, s: State, sid: SessionId, line: Bytes, choice: Choice, addr: SocketAddr)
    requires sid in s.clients && s.clients[sid].phase.Serving? && s.clients[sid].lease.None? && s.clients[sid].relayTx
    requires PlanCommand(env.ip, line, Some(sid)) == Ask(Route(addr, sid)) && ServiceJob(addr).None?
    ensures AfterLine(env, s, sid, line, choice)
         == SetClient(s, sid, s.clients[sid].(phase := Ending, relayTx := false)).(bufs := LineTaken(s, sid, line))
  {
  }

  lemma NoRouteLineSame(
    env: Env, w: Runner, sid: SessionId, choices: Choices, line: Bytes, rest: Bytes, addr: SocketAddr)
    requires Fits(w, sid) && w.lease.None? && LineFirst(w, line, rest)
    requires PlanCommand(env.ip, line, w.relayTx) == Ask(Route(addr, sid)) && ServiceJob(addr).None?
    ensures SameAfterLine(env, w, sid, choices, line, rest)
  {
    var s, f := Shown(w, sid, Serving), Ran(env, w, sid, choices, line, rest);
    var base := w.service.s;
    LineTakenOff(w, sid, line, rest);
    NoRouteRan(env, w, sid, choices, line, rest, addr);
    NoRouteStepped(env, s, sid, line, ChoiceFor(w, choices), addr);
    Overwritten(base.clients, sid, s.clients[sid], Face(base.clients[sid], f.w, PhaseAfter(f)));
  }

  lemma RouteRan(
    env: Env, w: Runner, sid: SessionId, choices: Choices, line: Bytes, rest: Bytes, addr: SocketAddr)
    requires PlanCommand(env.ip, line, w.relayTx) == Ask(Route(addr, sid)) && ServiceJob(addr).Some?
    requires !w.relayUdp
    ensures var c := choices(w.service.used);
      Ran(env, w, sid, choices, line, rest)
        == Leased(w, RouteIn(w.service, sid, addr, c).0, c.lease, false, rest, "PROXY OK")
  {
  }

  lemma RouteStepped(env: Env, s: State, sid: SessionId, line: Bytes, choice: Choice, addr: SocketAddr)
    requires sid in s.clients && s.clients[sid].phase.Serving? && s.clients[sid].lease.None? && s.clients[sid].relayTx
    requires PlanCommand(env.ip, line, Some(sid)) == Ask(Route(addr, sid)) && ServiceJob(addr).Some?
    ensures AfterLine(env, s, sid, line, choice)
         == WithLease(s, sid, choice.lease, None, ServiceJob(addr).value).(
              clients := s.clients[sid := LeasedFace(s.clients[sid], choice.lease, false, "PROXY OK", choice.answered)],
              bufs := LineTaken(s, sid, line))
  {
  }

  lemma RouteLineSame(
    env: Env, w: Runner, sid: SessionId, choices: Choices, line: Bytes, rest: Bytes, addr: SocketAddr)
    requires Fits(w, sid) && w.lease.None? && LineFirst(w, line, rest)
    requires PlanCommand(env.ip, line, w.relayTx) == Ask(Route(addr, sid)) && ServiceJob(addr).Some?
    ensures SameAfterLine(env, w, sid, choices, line, rest)
  {
    var s, base, c := Shown(w, sid, Serving), w.service.s, ChoiceFor(w, choices);
    LineTakenOff(w, sid, line, rest);
    RouteRan(env, w, sid, choices, line, rest, addr);
    RouteStepped(env, s, sid, line, c, addr);
    LeasedShown(w, sid, RouteIn(w.service, sid, addr, c).0, c.lease, false, rest, "PROXY OK");
    Overwritten(base.clients, sid, s.clients[sid], LeasedFace(s.clients[sid], c.lease, false, "PROXY OK", c.answered));
  }

  /** A line does the same in the runner and in the machine. */
  lemma LineSame(env: Env, w: Runner, sid: SessionId, choices: Choices, line: Bytes, rest: Bytes)
    requires Fits(w, sid) && w.lease.None? && LineFirst(w, line, rest)
    ensures SameAfterLine(env, w, sid, choices, line, rest)
  {
    match PlanCommand(env.ip, line, w.relayTx)
    case Ask(NewAddress) => AddressLineSame(env, w, sid, choices, line, rest);
    case Ask(Claim(passcode, port, _)) =>
      if Bind(w.service.s.net, passcode, port, sid, w.service.s.now).Ok? {
        ClaimLineSame(env, w, sid, choices, line, rest, passcode, port);
      } else {
        RefusedLineSame(env, w, sid, choices, line, rest, passcode, port);
      }
    case Ask(Route(addr, _)) =>
      if ServiceJob(addr).Some? {
        RouteLineSame(env, w, sid, choices, line, rest, addr);
      } else {
        NoRouteLineSame(env, w, sid, choices, line, rest, addr);
      }
    case _ => PlainLineSame(env, w, sid, choices, line, rest);
  }

  // ----- a whole chunk -----

  /** The state after these steps, one after the other, if all can be taken. */
  ghost function Taking(env: Env, s: State, steps: seq<Step>): Option<State>
    decreases |steps|
  {
    if steps == [] then Some(s)
    else if Enabled(env, s, steps[0]) then Taking(env, Next(env, s, steps[0]), steps[1..])
    else None
  }

  lemma {:induction false} TakingMore(env: Env, s: State, steps: seq<Step>, t: State, more: seq<Step>)
    requires Taking(env, s, steps) == Some(t)
    ensures Taking(env, s, steps + more) == Taking(env, t, more)
    decreases |steps|
  {
    if steps == [] {
      assert steps + more == more;
    } else {
      assert (steps + more)[1..] == steps[1..] + more;
      TakingMore(env, Next(env, s, steps[0]), steps[1..], t, more);
    }
  }

  lemma TakingOne(env: Env, s: State, step: Step)
    requires Enabled(env, s, step)
    ensures Taking(env, s, [step]) == Some(Next(env, s, step))
  {
    assert [step][1..] == [];
  }

  /** Each choice can be made at the command that it comes to be used for. */
  ghost predicate ChoicesFit(env: Env, w: Runner, sid: SessionId, choices: Choices)
    decreases |w.cmdbuf|
  {
    sid in w.service.s.clients && (w.lease.None? ==>
      match WebTransport.IndexOf(WebTransport.NEWLINE, w.cmdbuf)
      case None => true
      case Some(n) =>
        var line, rest := w.cmdbuf[..n], w.cmdbuf[n + 1..];
        var f := Ran(env, w, sid, choices, line, rest);
        && ChoiceAllowed(Shown(w, sid, Serving), PlanCommand(env.ip, line, w.relayTx), ChoiceFor(w, choices))
        && (f.Going? ==> |f.w.cmdbuf| < |w.cmdbuf| && ChoicesFit(env, f.w, sid, choices)))
  }

  /** The session's steps for a line, taken one after the other. */
  lemma LineSteps(env: Env, w: Runner, sid: SessionId, choices: Choices, line: Bytes, rest: Bytes)
    returns (steps: seq<Step>)
    requires Fits(w, sid) && w.lease.None? && LineFirst(w, line, rest)
    requires ChoiceAllowed(Shown(w, sid, Serving), PlanCommand(env.ip, line, w.relayTx), ChoiceFor(w, choices))
    ensures var s := Shown(w, sid, Serving);
      Taking(env, s, steps) == Some(AfterLine(env, s, sid, line, ChoiceFor(w, choices)))
  {
    var s, choice := Shown(w, sid, Serving), ChoiceFor(w, choices);
    LineTakenOff(w, sid, line, rest);
    var first := Command(sid, line, choice);
    var t := RunCommand(env, s, sid, line, choice).(bufs := LineTaken(s, sid, line));
    TakesLine(env, s, sid, line, choice);
    steps := [first];
    if sid in t.clients && t.clients[sid].phase.Binding? {
      ClaimAddsNoTask(env, s, sid, line, choice);
      var second := BindDone(sid, choice.lease, choice.answered);
      TakingOne(env, t, second);
      TakingMore(env, s, steps, t, [second]);
      steps := steps + [second];
    }
  }

  lemma TakesLine(env: Env, s: State, sid: SessionId, line: Bytes, choice: Choice)
    requires sid in s.clients && s.clients[sid].phase.Serving? && s.clients[sid].send && s.clients[sid].lease.None?
    requires s.clients[sid].transport == OverWebTransport && HasLine(s, sid, line)
    requires ChoiceAllowed(s, PlanFor(env, s.clients[sid], sid, line), choice)
    ensures Taking(env, s, [Command(sid, line, choice)])
         == Some(RunCommand(env, s, sid, line, choice).(bufs := LineTaken(s, sid, line)))
  {
    TakingOne(env, s, Command(sid, line, choice));
  }

  lemma ServeClaims(env: Env, s: State, sid: SessionId, call: Call, choice: Choice)
    requires sid in s.clients && s.clients[sid].phase.Serving?
    ensures var t := Serve(env, s, sid, call, choice);
      sid in t.clients && (t.clients[sid].phase.Binding? ==> t.tasks == s.tasks)
  {
    match call
    case NewAddress =>
    case Claim(_, _, _) =>
    case Route(_, _) => AnsweredIsNoClaim(env, s.clients[sid], sid, call, Refused, choice.answered);
  }

  lemma AnsweredIsNoClaim(env: Env, c: Client, sid: SessionId, call: Call, answer: Answer, answered: bool)
    ensures !AfterCommand(env, c, sid, call, answer, answered).phase.Binding?
  {
  }

  lemma ClaimAddsNoTask(env: Env, s: State, sid: SessionId, line: Bytes, choice: Choice)
    requires sid in s.clients && s.clients[sid].phase.Serving?
    ensures var t := RunCommand(env, s, sid, line, choice);
      sid in t.clients && (t.clients[sid].phase.Binding? ==> t.tasks == s.tasks)
  {
    match PlanFor(env, s.clients[sid], sid, line)
    case Ask(call) => ServeClaims(env, s, sid, call, choice);
    case _ =>
  }

  /** Data for the lease, out of the buffer or straight from the stream. */
  lemma DataSteps(env: Env, w: Runner, sid: SessionId, data: Bytes)
    requires Fits(w, sid) && w.lease.Some? && data != [] && (w.cmdbuf == [] || w.cmdbuf == data)
    ensures var f := WebTransport.RelayStream(w.(cmdbuf := []), data);
      && Taking(env, Shown(w, sid, Serving), [Data(sid, StreamChunk, data)]) == Some(Shown(f.w, sid, PhaseAfter(f)))
      && (f.Going? ==> Fits(f.w, sid))
  {
    var s := Shown(w, sid, Serving);
    TakingOne(env, s, Data(sid, StreamChunk, data));
    DataSame(w, sid, data);
  }

  lemma GivenOneMoreTime(tasks: map<LeaseId, Task>, l: LeaseId, messages: seq<Bytes>, last: Bytes)
    requires l in tasks
    ensures var given := TasksGiven(tasks, Some(l), messages);
      && l in given && given[l].progress == tasks[l].progress && given[l].job.Translating? == tasks[l].job.Translating?
      && TasksGiven(tasks, Some(l), messages + [last]) == given[l := GivenMore(given[l], [last])]
  {
    GivenMoreTwice(tasks[l], messages, last);
    if messages == [] {
      assert messages + [last] == [last];
    } else {
      Overwritten(tasks, l, GivenMore(tasks[l], messages), GivenMore(tasks[l], messages + [last]));
    }
  }

  lemma GivenMoreTwice(task: Task, messages: seq<Bytes>, last: Bytes)
    ensures GivenMore(GivenMore(task, messages), [last]) == GivenMore(task, messages + [last])
  {
    match task.job
    case Connecting(_, given, _) => assert given + (messages + [last]) == given + messages + [last];
    case Resolving(asked, _) => assert asked + (messages + [last]) == asked + messages + [last];
    case Translating(_, _) =>
  }

  lemma DataSame(w: Runner, sid: SessionId, data: Bytes)
    requires Fits(w, sid) && w.lease.Some? && data != []
    ensures var f := WebTransport.RelayStream(w.(cmdbuf := []), data);
      var s := Shown(w, sid, Serving);
      && HandData(s, sid, StreamChunk, data).(bufs := s.bufs[sid := []]) == Shown(f.w, sid, PhaseAfter(f))
      && (f.Going? ==> Fits(f.w, sid))
  {
    var s, base, l := Shown(w, sid, Serving), w.service.s, w.lease.value;
    GivenOneMoreTime(base.tasks, l, w.forwarded, data);
    Overwritten(base.bufs, sid, w.cmdbuf, []);
    Overwritten(base.clients, sid, s.clients[sid], s.clients[sid].(phase := Ending));
  }

  /** What is left to do when there is no line to run. */
  lemma RestSteps(env: Env, w: Runner, sid: SessionId, choices: Choices) returns (steps: seq<Step>)
    requires Fits(w, sid) && (w.lease.Some? || WebTransport.IndexOf(WebTransport.NEWLINE, w.cmdbuf).None?)
    ensures var f := WebTransport.Drain(env.ip, ServiceFor(sid, choices), MAX_COMMAND_SIZE, w);
      && sid in f.w.service.s.clients
      && Taking(env, Shown(w, sid, Serving), steps) == Some(Shown(f.w, sid, PhaseAfter(f)))
  {
    steps := [];
    if w.lease.Some? {
      if w.cmdbuf == [] {
        assert w.(cmdbuf := []) == w;
      } else {
        steps := [Data(sid, StreamChunk, w.cmdbuf)];
        DataSteps(env, w, sid, w.cmdbuf);
      }
    } else if |w.cmdbuf| >= MAX_COMMAND_SIZE {
      steps := [Overgrown(sid)];
      OvergrownSteps(env, w, sid);
    }
  }

  lemma DrainRan(env: Env, w: Runner, sid: SessionId, choices: Choices, line: Bytes, rest: Bytes)
    requires w.lease.None? && LineFirst(w, line, rest)
    ensures var f := Ran(env, w, sid, choices, line, rest);
      WebTransport.Drain(env.ip, ServiceFor(sid, choices), MAX_COMMAND_SIZE, w)
        == if f.Going? then WebTransport.Drain(env.ip, ServiceFor(sid, choices), MAX_COMMAND_SIZE, f.w) else f
  {
    assert w.(cmdbuf := w.cmdbuf) == w;
    WebTransport.DrainLine(env.ip, ServiceFor(sid, choices), MAX_COMMAND_SIZE, w, line, rest);
  }

  /** The command loop over what is buffered. */
  lemma {:induction false} DrainSteps(env: Env, w: Runner, sid: SessionId, choices: Choices) returns (steps: seq<Step>)
    requires Fits(w, sid) && ChoicesFit(env, w, sid, choices)
    ensures var f := WebTransport.Drain(env.ip, ServiceFor(sid, choices), MAX_COMMAND_SIZE, w);
      && sid in f.w.service.s.clients
      && Taking(env, Shown(w, sid, Serving), steps) == Some(Shown(f.w, sid, PhaseAfter(f)))
    decreases |w.cmdbuf|
  {
    var newline := WebTransport.IndexOf(WebTransport.NEWLINE, w.cmdbuf);
    if w.lease.Some? || newline.None? {
      steps := RestSteps(env, w, sid, choices);
    } else {
      var line, rest := w.cmdbuf[..newline.value], w.cmdbuf[newline.value + 1..];
      assert w.cmdbuf == line + [WebTransport.NEWLINE] + rest;
      var f := Ran(env, w, sid, choices, line, rest);
      steps := LineSteps(env, w, sid, choices, line, rest);
      LineSame(env, w, sid, choices, line, rest);
      DrainRan(env, w, sid, choices, line, rest);
      if f.Going? {
        var more := DrainSteps(env, f.w, sid, choices);
        TakingMore(env, Shown(w, sid, Serving), steps, Shown(f.w, sid, Serving), more);
        steps := steps + more;
      }
    }
  }

  lemma OvergrownSteps(env: Env, w: Runner, sid: SessionId)
    requires Fits(w, sid) && w.lease.None? && |w.cmdbuf| >= MAX_COMMAND_SIZE && WebTransport.NEWLINE !in w.cmdbuf
    ensures Taking(env, Shown(w, sid, Serving), [Overgrown(sid)]) == Some(Shown(w, sid, Ending))
  {
    var s, base := Shown(w, sid, Serving), w.service.s;
    TakingOne(env, s, Overgrown(sid));
    Overwritten(base.clients, sid, s.clients[sid], s.clients[sid].(phase := Ending));
  }

  /** Handling a chunk is the session's own steps of the machine, one after the
      other: the runner that comes out is the session as they leave it, with the
      same tables, leases, tasks and messages handed over, and it has failed
      exactly if the session has left its loop. */
  lemma ChunkIsSteps(env: Env, w: Runner, sid: SessionId, choices: Choices, data: Bytes) returns (steps: seq<Step>)
    requires Fits(w, sid) && WebTransport.Idle(MAX_COMMAND_SIZE, w) && data != []
    requires ChoicesFit(env, w.(cmdbuf := w.cmdbuf + data), sid, choices)
    ensures var f := WebTransport.HandleData(env.ip, ServiceFor(sid, choices), MAX_COMMAND_SIZE, w, data);
      && sid in f.w.service.s.clients
      && Taking(env, Shown(w, sid, Serving), steps) == Some(Shown(f.w, sid, PhaseAfter(f)))
  {
    if w.lease.Some? {
      assert w.(cmdbuf := []) == w;
      steps := [Data(sid, StreamChunk, data)];
      DataSteps(env, w, sid, data);
    } else {
      var v := w.(cmdbuf := w.cmdbuf + data);
      BufferSteps(env, w, sid, data);
      var more := DrainSteps(env, v, sid, choices);
      TakingMore(env, Shown(w, sid, Serving), [Buffer(sid, data)], Shown(v, sid, Serving), more);
      steps := [Buffer(sid, data)] + more;
    }
  }

  lemma BufferSteps(env: Env, w: Runner, sid: SessionId, data: Bytes)
    requires Fits(w, sid) && w.lease.None? && WebTransport.Idle(MAX_COMMAND_SIZE, w) && data != []
    ensures Taking(env, Shown(w, sid, Serving), [Buffer(sid, data)])
         == Some(Shown(w.(cmdbuf := w.cmdbuf + data), sid, Serving))
  {
    TakingOne(env, Shown(w, sid, Serving), Buffer(sid, data));
    Overwritten(w.service.s.bufs, sid, w.cmdbuf, w.cmdbuf + data);
  }

  // ----- every session is such a runner -----

  function Lines(replies: seq<string>): seq<WebTransport.Output> {
    if replies == [] then [] else Lines(replies[..|replies| - 1]) + [WebTransport.Line(replies[|replies| - 1])]
  }

  lemma {:induction false} LinesShow(replies: seq<string>)
    ensures Replies(Lines(replies)) == replies
  {
    if replies != [] {
      var before, last := replies[..|replies| - 1], replies[|replies| - 1];
      LinesShow(before);
      RepliesMore(Lines(before), last);
      assert replies == before + [last];
    }
  }

  /** The runner that session `sid` is, as of now. */
  function RunnerOf(s: State, sid: SessionId, answers: nat): Runner
    requires sid in s.clients
  {
    var c := s.clients[sid];
    WebTransport.Runner(World(s, 0), if c.relayTx then Some(sid) else None, c.lease, c.send, c.relayUdp,
      BufOf(s, sid), Lines(c.replies), [], answers, c.lease.None? || IsLive(s, c.lease.value))
  }

  lemma KnownOfSession(env: Env, s: State, sid: SessionId)
    requires Reachable(env, s) && sid in s.clients && s.clients[sid].phase.Serving? && s.clients[sid].send
    requires s.clients[sid].transport == OverWebTransport
    ensures var c := s.clients[sid];
      && (c.relayTx <==> c.lease.None?) && (c.lease.None? ==> !c.relayUdp)
      && (c.lease.Some? ==> LeaseFits(s, c.lease.value, c.relayUdp, IsLive(s, c.lease.value)))
  {
    ReachableKeeps(env, s);
    var c := s.clients[sid];
    assert ClientSound(c) && HolderSound(s, sid);
    if c.lease.Some? {
      assert LeaseServed(s, c.lease.value);
    }
  }

  /** In every reachable state a serving WebTransport session with a stream is
      such a runner, which can be given a chunk when the session is not busy. */
  lemma SessionIsRunner(env: Env, s: State, sid: SessionId, answers: nat)
    requires Reachable(env, s) && sid in s.clients && s.clients[sid].phase.Serving?
    requires s.clients[sid].transport == OverWebTransport && s.clients[sid].send
    ensures Fits(RunnerOf(s, sid, answers), sid)
    ensures Shown(RunnerOf(s, sid, answers), sid, Serving) == s.(bufs := s.bufs[sid := BufOf(s, sid)])
    ensures WebTransport.Idle(MAX_COMMAND_SIZE, RunnerOf(s, sid, answers)) <==> !Busy(s, sid)
  {
    KnownOfSession(env, s, sid);
    LinesShow(s.clients[sid].replies);
    assert s.clients[sid := s.clients[sid]] == s.clients;
  }
}
